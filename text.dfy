/** The .NET string operations the agent calls: ordinal Contains, ToLower and Split. */
module Text {

  /** sub occurs in s starting at position i. */
  predicate OccursAt(s: string, sub: string, i: int) {
    0 <= i <= |s| - |sub| && s[i..i + |sub|] == sub
  }

  /** Ordinal, case-sensitive `s.Contains(sub)`: sub occurs in s at some position. */
  function Contains(s: string, sub: string): (r: bool)
    ensures r <==> exists i :: OccursAt(s, sub, i)
    decreases |s|
  {
    if |sub| > |s| then false
    else if s[..|sub|] == sub then
      assert OccursAt(s, sub, 0);
      true
    else
      var r := Contains(s[1..], sub);
      ShiftOccurrence(s, sub);
      r
  }

  /** Away from position 0, an occurrence in s is an occurrence in s[1..] one position earlier. */
  lemma ShiftOccurrence(s: string, sub: string)
    requires |sub| <= |s| && s[..|sub|] != sub
    ensures (exists i :: OccursAt(s, sub, i)) <==> (exists i :: OccursAt(s[1..], sub, i))
  {
    if exists i :: OccursAt(s, sub, i) {
      var i :| OccursAt(s, sub, i);
      assert i != 0;
      assert s[1..][i - 1..i - 1 + |sub|] == s[i..i + |sub|];
      assert OccursAt(s[1..], sub, i - 1);
    }
    if exists i :: OccursAt(s[1..], sub, i) {
      var i :| OccursAt(s[1..], sub, i);
      assert s[i + 1..i + 1 + |sub|] == s[1..][i..i + |sub|];
      assert OccursAt(s, sub, i + 1);
    }
  }

  /** One character lower-cased in the invariant culture, restricted to ASCII. */
  function LowerChar(c: char): (l: char)
    ensures !('A' <= l <= 'Z')
    ensures 'A' <= c <= 'Z' ==> l as int == c as int + 32
    ensures !('A' <= c <= 'Z') ==> l == c
  {
    if 'A' <= c <= 'Z' then (c as int + 32) as char else c
  }

  /** `s.ToLower()` on ASCII text: every upper-case letter replaced by its lower-case form. */
  function ToLower(s: string): (r: string)
    ensures |r| == |s|
    ensures forall i :: 0 <= i < |s| ==> r[i] == LowerChar(s[i])
  {
    if s == [] then [] else [LowerChar(s[0])] + ToLower(s[1..])
  }


  /** The pieces joined back together with the separator between them. */
  function Join(pieces: seq<string>, sep: char): string
    requires |pieces| >= 1
  {
    if |pieces| == 1 then pieces[0] else pieces[0] + [sep] + Join(pieces[1..], sep)
  }

  /** The pieces concatenated without separators. */
  function Concat(pieces: seq<string>): string {
    if pieces == [] then [] else pieces[0] + Concat(pieces[1..])
  }

  /**
   * `s.Split(sep)`: the text between consecutive separators, empty pieces included;
   * there is always one more piece than there are separators.
   */
  function Split(s: string, sep: char): (pieces: seq<string>)
    ensures |pieces| >= 1
    ensures forall i :: 0 <= i < |pieces| ==> sep !in pieces[i]
    ensures Join(pieces, sep) == s
  {
    if s == [] then [""]
    else
      var rest := Split(s[1..], sep);
      if s[0] == sep then
        assert [sep] + Join(rest, sep) == s;
        [""] + rest
      else
        var pieces := [[s[0]] + rest[0]] + rest[1..];
        JoinConsHead(s[0], rest, sep);
        assert [s[0]] + Join(rest, sep) == s;
        pieces
  }

  lemma JoinConsHead(c: char, pieces: seq<string>, sep: char)
    requires |pieces| >= 1
    ensures Join([[c] + pieces[0]] + pieces[1..], sep) == [c] + Join(pieces, sep)
  {
    var p := [[c] + pieces[0]] + pieces[1..];
    assert p[1..] == pieces[1..];
  }

  /** Splitting text made by joining separator-free pieces gives back those pieces. */
  lemma {:induction false} SplitJoin(pieces: seq<string>, sep: char)
    requires |pieces| >= 1
    requires forall i :: 0 <= i < |pieces| ==> sep !in pieces[i]
    ensures Split(Join(pieces, sep), sep) == pieces
    decreases |Join(pieces, sep)|
  {
    var s := Join(pieces, sep);
    if pieces[0] == [] {
      if |pieces| > 1 {
        assert s == [sep] + Join(pieces[1..], sep);
        assert s[1..] == Join(pieces[1..], sep);
        SplitJoin(pieces[1..], sep);
        assert pieces == [""] + pieces[1..];
      }
    } else {
      var c := pieces[0][0];
      var shorter := [pieces[0][1..]] + pieces[1..];
      assert shorter[1..] == pieces[1..];
      assert forall i :: 0 <= i < |shorter| ==> sep !in shorter[i] by {
        forall i | 0 <= i < |shorter| ensures sep !in shorter[i] {
          if i == 0 {
            assert sep !in pieces[0];
          } else {
            assert shorter[i] == pieces[i];
          }
        }
      }
      assert pieces[0] == [c] + pieces[0][1..];
      assert [[c] + shorter[0]] + shorter[1..] == pieces;
      JoinConsHead(c, shorter, sep);
      assert s == [c] + Join(shorter, sep);
      assert s[1..] == Join(shorter, sep);
      assert c != sep;
      SplitJoin(shorter, sep);
    }
  }

  /** The non-empty pieces, in their original order. */
  function RemoveEmpty(pieces: seq<string>): (r: seq<string>)
    ensures forall i :: 0 <= i < |r| ==> r[i] != []
    ensures forall p :: p in r <==> p in pieces && p != []
    ensures Concat(r) == Concat(pieces)
    ensures "" !in pieces ==> r == pieces
  {
    if pieces == [] then []
    else if pieces[0] == [] then RemoveEmpty(pieces[1..])
    else [pieces[0]] + RemoveEmpty(pieces[1..])
  }

  /** `s.Split(sep, StringSplitOptions.RemoveEmptyEntries)`: the non-empty pieces, not trimmed. */
  function SplitRemoveEmpty(s: string, sep: char): (pieces: seq<string>)
    ensures forall i :: 0 <= i < |pieces| ==> pieces[i] != [] && sep !in pieces[i]
    ensures Concat(pieces) == Concat(Split(s, sep))
  {
    var all := Split(s, sep);
    var pieces := RemoveEmpty(all);
    assert forall i :: 0 <= i < |pieces| ==> pieces[i] in all;
    pieces
  }

  /**
   * RemoveEmpty is the order-preserving filter: it distributes over concatenation
   * and keeps a single piece exactly when that piece is non-empty, so the kept
   * pieces appear in their original order and with their original multiplicity.
   */
  lemma {:induction false} RemoveEmptyIsFilter(a: seq<string>, b: seq<string>, p: string)
    ensures RemoveEmpty(a + b) == RemoveEmpty(a) + RemoveEmpty(b)
    ensures RemoveEmpty([p]) == if p == [] then [] else [p]
    decreases |a|
  {
    if a == [] {
      assert a + b == b;
    } else {
      assert (a + b)[1..] == a[1..] + b;
      RemoveEmptyIsFilter(a[1..], b, p);
    }
    assert [p][1..] == [];
  }

  /**
   * Splitting text made of separator-free pieces joined by the separator, and
   * dropping the empty entries, gives exactly the non-empty pieces in order:
   * the pieces break at the separators and nowhere else.
   */
  lemma SplitRemoveEmptyOfJoin(pieces: seq<string>, sep: char)
    requires |pieces| >= 1
    requires forall i :: 0 <= i < |pieces| ==> sep !in pieces[i]
    ensures SplitRemoveEmpty(Join(pieces, sep), sep) == RemoveEmpty(pieces)
  {
    SplitJoin(pieces, sep);
  }

  /** When no two separators are adjacent and none stands at either end, nothing is dropped: joining the pieces gives s back. */
  lemma SplitRemoveEmptyJoin(s: string, sep: char)
    requires "" !in Split(s, sep)
    ensures |SplitRemoveEmpty(s, sep)| >= 1
    ensures Join(SplitRemoveEmpty(s, sep), sep) == s
  {
  }
}
