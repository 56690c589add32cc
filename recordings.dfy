/** The recordings atom (letter -> stored clip), its derived progress and
    completeness atoms, and the updates the recordings loader applies to it. */
module Recordings {
  import opened Common

  /** The value of `recordingsAtom`: at most one clip per key. */
  type Recordings = map<char, Blob>

  /** The loader's alphabet, `'ABCDEFGHIJKLMNOPQRSTUVWXYZ'.split('')`. */
  function Alphabet(): (a: seq<char>)
    ensures |a| == 26
    ensures forall i :: 0 <= i < 26 ==> a[i] as int == 65 + i
  {
    "ABCDEFGHIJKLMNOPQRSTUVWXYZ"
  }

  predicate IsLetter(c: char)
  {
    'A' <= c <= 'Z'
  }

  /** The set of the 26 letters, with its size. */
  function Letters(): (s: set<char>)
    ensures forall c :: c in s <==> IsLetter(c)
    ensures |s| == 26
  {
    var a := Alphabet();
    forall c | IsLetter(c) ensures c in a {
      assert a[c as int - 65] == c;
    }
    DistinctSize(a);
    set c | c in a
  }

  /** A sequence whose elements strictly increase has as many distinct
      elements as it has positions. */
  lemma {:induction false} DistinctSize(a: seq<char>)
    requires forall i, j :: 0 <= i < j < |a| ==> a[i] < a[j]
    ensures |set c | c in a| == |a|
  {
    if a != [] {
      var p := a[..|a| - 1];
      DistinctSize(p);
      assert (set c | c in a) == (set c | c in p) + {a[|a| - 1]};
      assert a[|a| - 1] !in p;
    }
  }

  /** `recordingsAtom`'s initial value. */
  function Initial(): (m: Recordings)
    ensures Progress(m) == 0 && !IsComplete(m)
  {
    map[]
  }

  /** `progressAtom`: the number of keys of the map. */
  function Progress(m: Recordings): (n: nat)
    ensures n == |m.Keys|
  {
    |m|
  }

  /** `isCompleteAtom`: the key count is exactly 26. */
  predicate IsComplete(m: Recordings)
  {
    Progress(m) == 26
  }

  /** The `recording-stored` handler: the freshly read clip (absent when the
      store returned nothing) overwrites the entry for its letter. */
  function OnRecordingStored(m: Recordings, letter: char, fetched: Option<Blob>): (m': Recordings)
    ensures fetched.None? ==> m' == m
    ensures fetched.Some? ==> letter in m' && m'[letter] == fetched.value
    ensures forall k :: k != letter ==> (k in m' <==> k in m)
    ensures forall k :: k != letter && k in m ==> m'[k] == m[k]
    ensures fetched.Some? ==> Progress(m') == if letter in m then Progress(m) else Progress(m) + 1
  {
    match fetched
    case None => m
    case Some(blob) =>
      assert letter !in m ==> m[letter := blob].Keys == m.Keys + {letter};
      assert letter in m ==> m[letter := blob].Keys == m.Keys;
      m[letter := blob]
  }

  /** The `all-recordings-cleared` handler. */
  function OnRecordingsCleared(m: Recordings): (m': Recordings)
    ensures Progress(m') == 0 && !IsComplete(m')
    ensures forall k :: k !in m'
  {
    map[]
  }

  /** Every key is one of the 26 letters (what the loader and the capture
      cards, which only ever store 'A' to 'Z', maintain). */
  predicate LettersOnly(m: Recordings)
  {
    forall k :: k in m ==> IsLetter(k)
  }

  /** With letter keys only, progress is at most 26 and the set is complete
      exactly when every letter has a clip. */
  lemma CompleteIffAllLetters(m: Recordings)
    requires LettersOnly(m)
    ensures Progress(m) <= 26
    ensures IsComplete(m) <==> forall c :: IsLetter(c) ==> c in m
  {
    var all := Letters();
    SubsetSize(m.Keys, all);
    if forall c :: IsLetter(c) ==> c in m {
      assert m.Keys == all;
    }
    if IsComplete(m) && exists c :: IsLetter(c) && c !in m {
      var c :| IsLetter(c) && c !in m;
      SubsetSize(m.Keys, all - {c});
    }
  }

  lemma SubsetSize<T>(a: set<T>, b: set<T>)
    requires a <= b
    ensures |a| <= |b|
  {
    assert b == a + (b - a);
  }

  /** Storing a letter keeps the letter-only shape, and it makes the set
      complete exactly when that was the last missing letter. */
  lemma StoreLastLetter(m: Recordings, letter: char, blob: Blob)
    requires LettersOnly(m) && IsLetter(letter)
    ensures LettersOnly(OnRecordingStored(m, letter, Some(blob)))
    ensures IsComplete(OnRecordingStored(m, letter, Some(blob)))
            <==> forall c :: IsLetter(c) && c != letter ==> c in m
  {
    var m' := OnRecordingStored(m, letter, Some(blob));
    CompleteIffAllLetters(m');
  }

  /** The loader's initial pass: for each letter 'A' to 'Z' the store is asked
      for a clip (here the store's content `db`), and only letters that have
      one are inserted into a fresh map. */
  method LoadAllRecordings(db: map<char, Blob>) returns (m: Recordings)
    ensures LettersOnly(m)
    ensures forall c :: c in m <==> c in db && IsLetter(c)
    ensures forall c :: c in m ==> m[c] == db[c]
    ensures Progress(m) <= 26
    ensures IsComplete(m) <==> forall c :: IsLetter(c) ==> c in db
  {
    var alphabet := Alphabet();
    m := map[];
    for i := 0 to |alphabet|
      invariant forall c :: c in m <==> c in db && 65 <= c as int < 65 + i
      invariant forall c :: c in m ==> m[c] == db[c]
    {
      var letter := alphabet[i];
      if letter in db {
        m := m[letter := db[letter]];
      }
    }
    CompleteIffAllLetters(m);
  }
}
