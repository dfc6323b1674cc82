/**
 * The wallet-dump filter (address/cmd/walletedit/main.go): it copies to the
 * output file every line of the input file that contains the text "label",
 * each followed by a newline, and stops at the first failed write.
 */
module WalletEdit {

  /** The case-sensitive text a line must contain to be kept. */
  const Label: string := "label"

  /** strings.Contains: `sub` occurs in `s` starting at some position. */
  predicate Contains(s: string, sub: string)
    decreases |s|
  {
    |sub| <= |s| && (s[..|sub|] == sub || Contains(s[1..], sub))
  }

  /** `sub` occurs in `s` starting at position i. */
  predicate OccursAt(s: string, sub: string, i: int)
  {
    0 <= i <= |s| - |sub| && s[i..i + |sub|] == sub
  }

  /** The recursive search agrees with "`sub` occurs at some position of `s`", in both directions. */
  lemma {:induction false} ContainsIffOccurs(s: string, sub: string)
    ensures Contains(s, sub) <==> exists i :: OccursAt(s, sub, i)
    decreases |s|
  {
    if |s| > 0 {
      ContainsIffOccurs(s[1..], sub);
    }
    if Contains(s, sub) {
      if s[..|sub|] == sub {
        assert OccursAt(s, sub, 0);
      } else {
        var i :| OccursAt(s[1..], sub, i);
        assert s[i + 1..i + 1 + |sub|] == s[1..][i..i + |sub|];
        assert OccursAt(s, sub, i + 1);
      }
    }
    if exists i :: OccursAt(s, sub, i) {
      var i :| OccursAt(s, sub, i);
      if i > 0 {
        assert s[1..][i - 1..i - 1 + |sub|] == s[i..i + |sub|];
        assert OccursAt(s[1..], sub, i - 1);
      }
    }
  }

  /** The lines the filter keeps, in input order. */
  function Kept(lines: seq<string>): seq<string>
  {
    if lines == [] then []
    else if Contains(lines[0], Label) then [lines[0]] + Kept(lines[1..])
    else Kept(lines[1..])
  }

  /** Filtering a concatenation filters each part. */
  lemma {:induction false} KeptAppend(a: seq<string>, b: seq<string>)
    ensures Kept(a + b) == Kept(a) + Kept(b)
    decreases |a|
  {
    if a == [] {
      assert a + b == b;
    } else {
      assert (a + b)[0] == a[0] && (a + b)[1..] == a[1..] + b;
      KeptAppend(a[1..], b);
    }
  }

  /** Lines are only ever dropped: the output has at most as many lines as the input. */
  lemma {:induction false} KeptShorter(lines: seq<string>)
    ensures |Kept(lines)| <= |lines|
    decreases |lines|
  {
    if lines != [] {
      KeptShorter(lines[1..]);
    }
  }

  /** A line is in the output exactly when it is an input line that contains "label". */
  lemma {:induction false} KeptMembers(lines: seq<string>, x: string)
    ensures x in Kept(lines) <==> x in lines && Contains(x, Label)
    decreases |lines|
  {
    if lines != [] {
      KeptMembers(lines[1..], x);
      assert lines == [lines[0]] + lines[1..];
    }
  }

  /** Every output line contains "label". */
  lemma KeptAllMatch(lines: seq<string>)
    ensures forall i | 0 <= i < |Kept(lines)| :: Contains(Kept(lines)[i], Label)
  {
    forall i | 0 <= i < |Kept(lines)|
      ensures Contains(Kept(lines)[i], Label)
    {
      KeptMembers(lines, Kept(lines)[i]);
    }
  }

  /** Filtering the output again changes nothing. */
  lemma {:induction false} KeptIdempotent(lines: seq<string>)
    ensures Kept(Kept(lines)) == Kept(lines)
    decreases |lines|
  {
    if lines != [] {
      KeptIdempotent(lines[1..]);
      if Contains(lines[0], Label) {
        assert ([lines[0]] + Kept(lines[1..]))[1..] == Kept(lines[1..]);
      }
    }
  }

  /** The bytes the writer receives: each line followed by "\n". */
  function Text(lines: seq<string>): (t: string)
    ensures |t| >= |lines|
  {
    if lines == [] then "" else lines[0] + "\n" + Text(lines[1..])
  }

  lemma {:induction false} TextAppend(a: seq<string>, b: seq<string>)
    ensures Text(a + b) == Text(a) + Text(b)
    decreases |a|
  {
    if a == [] {
      assert a + b == b;
    } else {
      assert (a + b)[0] == a[0] && (a + b)[1..] == a[1..] + b;
      TextAppend(a[1..], b);
    }
  }

  /**
   * How many of n writes go through: the index of the first write that fails,
   * or n when none of them does. `fails` stands for the file system.
   */
  function Succeeded(fails: nat -> bool, n: nat): (k: nat)
    ensures k <= n
    ensures forall j: nat | j < k :: !fails(j)
    ensures k < n ==> fails(k)
  {
    if n == 0 then 0
    else
      var k := Succeeded(fails, n - 1);
      if k < n - 1 then k else if fails(n - 1) then n - 1 else n
  }

  /** How the loop and the scanner end. */
  datatype Status = Completed | WriteError | ReadError

  /**
   * The scanner loop. `lines` are the lines the scanner returns before it stops,
   * `readFailed` whether it stops on an error, and `fails(j)` whether the j-th
   * write fails. The output is the text of the kept lines up to the first failed
   * write; a failed write ends the program before the scanner's error is looked at.
   */
  method FilterLines(lines: seq<string>, readFailed: bool, fails: nat -> bool)
    returns (out: string, status: Status)
    ensures var k := Succeeded(fails, |Kept(lines)|);
      out == Text(Kept(lines)[..k])
    ensures status == WriteError <==> exists j: nat | j < |Kept(lines)| :: fails(j)
    ensures status == ReadError <==> readFailed && forall j: nat | j < |Kept(lines)| :: !fails(j)
  {
    out := "";
    var written: nat := 0;
    var i := 0;
    while i < |lines|
      invariant 0 <= i <= |lines|
      invariant written == |Kept(lines[..i])|
      invariant out == Text(Kept(lines[..i]))
      invariant forall j: nat | j < written :: !fails(j)
    {
      var line := lines[i];
      KeptAppend(lines[..i], lines[i..i + 1]);
      assert lines[..i] + lines[i..i + 1] == lines[..i + 1];
      KeptAppend(lines[..i + 1], lines[i + 1..]);
      assert lines[..i + 1] + lines[i + 1..] == lines;
      if Contains(line, Label) {
        assert Kept(lines[i..i + 1]) == [line];
        if fails(written) {
          assert Kept(lines[..i + 1]) == Kept(lines[..i]) + [line];
          assert written < |Kept(lines)|;
          assert Succeeded(fails, |Kept(lines)|) == written;
          assert Kept(lines)[..written] == Kept(lines[..i]);
          status := WriteError;
          return;
        }
        TextAppend(Kept(lines[..i]), [line]);
        assert Text([line]) == line + "\n";
        out := out + (line + "\n");
        written := written + 1;
      } else {
        assert Kept(lines[i..i + 1]) == [];
        assert Kept(lines[..i] + lines[i..i + 1]) == Kept(lines[..i]);
      }
      i := i + 1;
    }
    assert lines[..i] == lines;
    assert Kept(lines)[..written] == Kept(lines);
    assert Succeeded(fails, written) == written;
    status := if readFailed then ReadError else Completed;
  }

  /** What the program finds before the loop starts. */
  datatype Setup =
    | ConfigUnreadable
    | ConfigUnparsable
    | InputUnopenable
    | OutputUncreatable
    | Opened(lines: seq<string>, readFailed: bool)

  /** The program's end: an error before the loop, or the loop's output and status. */
  datatype Run = SetupError(step: Setup) | Filtered(out: string, status: Status)

  /** main: each setup failure returns before anything is written; otherwise the filter runs. */
  method Edit(setup: Setup, fails: nat -> bool) returns (r: Run)
    ensures !setup.Opened? ==> r == SetupError(setup)
    ensures setup.Opened? ==>
      r.Filtered? && r.out == Text(Kept(setup.lines)[..Succeeded(fails, |Kept(setup.lines)|)])
    ensures setup.Opened? && (forall j: nat | j < |Kept(setup.lines)| :: !fails(j)) ==>
      r == Filtered(Text(Kept(setup.lines)), if setup.readFailed then ReadError else Completed)
  {
    match setup
    case Opened(lines, readFailed) =>
      var out, status := FilterLines(lines, readFailed, fails);
      r := Filtered(out, status);
      var n := |Kept(lines)|;
      if forall j: nat | j < n :: !fails(j) {
        assert Succeeded(fails, n) == n;
        assert Kept(lines)[..n] == Kept(lines);
      }
    case _ =>
      r := SetupError(setup);
  }
}
