/** How the output of a turn is searched for a self-flagged review: the last three
    lines that are not blank, from the bottom up. */
module ReviewMarker {
  import opened RelayTypes

  const SCAN_LINES := 3
  const MAX_MOTIVE := 300

  /** What counts as white space, and which motive a line gives, if it is a marker. The
      motive is empty when it says that no review is needed. */
  datatype Reader = Reader(space: char -> bool, motive: string -> Option<string>)

  // ---- lines ---------------------------------------------------------------

  function Split(s: string): seq<string> {
    if s == "" then [""]
    else
      var lines := Split(s[..|s| - 1]);
      if s[|s| - 1] == '\n' then lines + [""]
      else lines[..|lines| - 1] + [lines[|lines| - 1] + [s[|s| - 1]]]
  }

  function Join(lines: seq<string>): string {
    if lines == [] then ""
    else if |lines| == 1 then lines[0]
    else Join(lines[..|lines| - 1]) + "\n" + lines[|lines| - 1]
  }

  predicate Unbroken(lines: seq<string>) {
    forall i :: 0 <= i < |lines| ==> '\n' !in lines[i]
  }

  /** Splitting loses nothing. */
  lemma {:induction false} SplitJoins(s: string)
    ensures Split(s) != [] && Unbroken(Split(s)) && Join(Split(s)) == s
  {
    if s != "" {
      var lines := Split(s[..|s| - 1]);
      SplitJoins(s[..|s| - 1]);
      if s[|s| - 1] == '\n' {
        assert (lines + [""])[..|lines|] == lines;
      } else {
        var last := lines[|lines| - 1] + [s[|s| - 1]];
        assert Split(s)[..|lines| - 1] == lines[..|lines| - 1];
        assert Join(Split(s)) == Join(lines) + [s[|s| - 1]];
      }
      assert s == s[..|s| - 1] + [s[|s| - 1]];
    }
  }

  /** The lines with this text after the last one. */
  function Lengthened(lines: seq<string>, text: string): (r: seq<string>)
    requires lines != []
    ensures r != []
  {
    lines[..|lines| - 1] + [lines[|lines| - 1] + text]
  }

  lemma LengthenedByNothing(lines: seq<string>)
    requires lines != []
    ensures Lengthened(lines, "") == lines
  {
    var tail := lines[|lines| - 1];
    assert tail + "" == tail;
  }

  lemma LengthenedTwice(lines: seq<string>, a: string, b: string)
    requires lines != []
    ensures Lengthened(Lengthened(lines, a), b) == Lengthened(lines, a + b)
  {
    var tail := lines[|lines| - 1];
    assert tail + a + b == tail + (a + b);
  }

  lemma SplitNext(s: string, c: char)
    ensures Split(s) != []
    ensures Split(s + [c]) == if c == '\n' then Split(s) + [""] else Lengthened(Split(s), [c])
  {
    SplitJoins(s);
    assert (s + [c])[..|s|] == s;
  }

  lemma {:induction false} SplitLonger(s: string, line: string)
    requires '\n' !in line
    ensures Split(s) != [] && Split(s + line) == Lengthened(Split(s), line)
  {
    SplitJoins(s);
    if line == "" {
      assert s + line == s;
      LengthenedByNothing(Split(s));
    } else {
      var short, c := line[..|line| - 1], line[|line| - 1];
      assert c in line && line == short + [c] && s + line == s + short + [c];
      SplitLonger(s, short);
      SplitNext(s + short, c);
      LengthenedTwice(Split(s), short, [c]);
    }
  }

  /** Lines are exactly what comes back when they are joined and split again. */
  lemma {:induction false} JoinSplits(lines: seq<string>)
    requires lines != [] && Unbroken(lines)
    ensures Split(Join(lines)) == lines
  {
    var front, last := lines[..|lines| - 1], lines[|lines| - 1];
    assert "" + last == last;
    if |lines| == 1 {
      SplitLonger("", last);
    } else {
      JoinSplits(front);
      SplitNext(Join(front), '\n');
      SplitLonger(Join(front) + ['\n'], last);
      assert (front + [""])[..|front|] == front;
      assert Join(front) + "\n" == Join(front) + ['\n'];
    }
  }

  /** The string without its trailing white space. */
  function Stripped(s: string, reader: Reader): (r: string)
    ensures r <= s && (r == "" || !reader.space(r[|r| - 1]))
    ensures forall i :: |r| <= i < |s| ==> reader.space(s[i])
  {
    if s == "" || !reader.space(s[|s| - 1]) then s else Stripped(s[..|s| - 1], reader)
  }

  predicate Blank(line: string, reader: Reader) {
    forall i :: 0 <= i < |line| ==> reader.space(line[i])
  }

  // ---- the scan ------------------------------------------------------------

  predicate Full(lines: seq<string>, reader: Reader, i: nat) {
    i < |lines| && !Blank(lines[i], reader)
  }

  /** How many lines from i on are not blank. */
  function Solid(lines: seq<string>, reader: Reader, i: nat): nat
    requires i <= |lines|
    decreases |lines| - i
  {
    if i == |lines| then 0
    else Solid(lines, reader, i + 1) + if Full(lines, reader, i) then 1 else 0
  }

  lemma {:induction false} SolidShrinks(lines: seq<string>, reader: Reader, i: nat, k: nat)
    requires i <= k <= |lines|
    ensures Solid(lines, reader, i) >= Solid(lines, reader, k)
    decreases k - i
  {
    if i < k {
      SolidShrinks(lines, reader, i + 1, k);
    }
  }

  /** Line i is one of the last that are not blank. */
  predicate Scanned(lines: seq<string>, reader: Reader, i: nat) {
    Full(lines, reader, i) && Solid(lines, reader, i + 1) < SCAN_LINES
  }

  /** Line i is a marker among the lines scanned. */
  predicate Marks(lines: seq<string>, reader: Reader, i: nat) {
    Scanned(lines, reader, i) && reader.motive(lines[i]).Some?
  }

  predicate Descending(found: seq<nat>) {
    forall k, l :: 0 <= k < l < |found| ==> found[l] < found[k]
  }

  /** The positions of the lines to scan, bottom up. */
  method Candidates(lines: seq<string>, reader: Reader) returns (found: seq<nat>)
    ensures forall i: nat :: i in found <==> Scanned(lines, reader, i)
    ensures Descending(found)
    ensures |found| <= 3 && forall i: nat, k: nat :: i in found && i < k && Full(lines, reader, k) ==> k in found
    ensures |found| < 3 ==> forall i: nat :: Full(lines, reader, i) ==> i in found
  {
    found := [];
    var i: nat := |lines|;
    while i > 0 && |found| < SCAN_LINES
      invariant i <= |lines| && |found| == Solid(lines, reader, i) <= SCAN_LINES
      invariant forall k: nat :: k in found <==> i <= k && Full(lines, reader, k)
      invariant forall k: nat :: k in found ==> Scanned(lines, reader, k)
      invariant Descending(found)
    {
      assert forall k :: 0 <= k < |found| ==> found[k] in found;
      i := i - 1;
      if !Blank(lines[i], reader) {
        found := found + [i];
      }
    }
    forall k: nat | Scanned(lines, reader, k)
      ensures i <= k
    {
      if k < i {
        SolidShrinks(lines, reader, k + 1, i);
      }
    }
  }

  /** The lowest marker decides, and of the output only its line and then the trailing
      white space are removed; a motive that says no review is needed does not flag,
      a long one is cut. */
  method ParseReviewMarker(output: string, reader: Reader)
    returns (flagged: Option<string>, cleaned: string, at: Option<nat>)
    ensures var lines := Split(output);
            at.None? ==> flagged.None? && cleaned == output && forall i: nat :: !Marks(lines, reader, i)
    ensures var lines := Split(output);
            at.Some? ==>
              Marks(lines, reader, at.value) && (forall i: nat :: i > at.value ==> !Marks(lines, reader, i))
              && cleaned == Stripped(Join(lines[..at.value] + lines[at.value + 1..]), reader)
    ensures at.Some? ==>
              var motive := reader.motive(Split(output)[at.value]).value;
              (flagged.None? <==> motive == "")
              && (flagged.Some? ==>
                    flagged.value <= motive
                    && |flagged.value| == if |motive| > 300 then 300 else |motive|)
  {
    var lines := Split(output);
    var found := Candidates(lines, reader);
    for k := 0 to |found|
      invariant forall l :: 0 <= l < k ==> !Marks(lines, reader, found[l])
    {
      var i := found[k];
      assert i in found;
      var motive := reader.motive(lines[i]);
      if motive.Some? {
        cleaned := Stripped(Join(lines[..i] + lines[i + 1..]), reader);
        flagged := if motive.value == "" then None
                   else if |motive.value| > MAX_MOTIVE then Some(motive.value[..MAX_MOTIVE])
                   else motive;
        return flagged, cleaned, Some(i);
      }
    }
    return None, output, None;
  }
}
