/**
 * The address-list formatter (address/cmd/address/main.go): it joins the
 * `address` fields of a JSON file into one space-separated string of at most
 * 3000 addresses and prints it inside a console `tx` command.
 */
module Addresses {

  /** The most addresses put into one command. */
  const MaxAddresses: nat := 3000

  /** The `address` field of one JSON entry. */
  datatype AddressField = Missing | Text(s: string)

  /** How `%s` formats the field: a missing field is a nil interface value. */
  function Render(a: AddressField): string
  {
    match a
    case Missing => "%!s(<nil>)"
    case Text(s) => s
  }

  /** Every address, each followed by one space. */
  function Spaced(addrs: seq<AddressField>): string
  {
    if addrs == [] then "" else Spaced(addrs[..|addrs| - 1]) + Render(addrs[|addrs| - 1]) + " "
  }

  /**
   * The joined string: a space after entry i exactly when i < 2999, so fewer
   * than 3000 entries leave a trailing space, and 3000 or more give exactly the
   * first 3000 with no trailing space.
   */
  function Joined(addrs: seq<AddressField>): string
  {
    if |addrs| < MaxAddresses then Spaced(addrs)
    else Spaced(addrs[..MaxAddresses - 1]) + Render(addrs[MaxAddresses - 1])
  }

  /** The loop with its early break and its builder. */
  method JoinAddresses(addrs: seq<AddressField>) returns (joined: string)
    ensures joined == Joined(addrs)
  {
    joined := "";
    var i := 0;
    while i < |addrs|
      invariant 0 <= i <= |addrs| && i <= MaxAddresses
      invariant i < MaxAddresses ==> joined == Spaced(addrs[..i])
      invariant i == MaxAddresses ==> joined == Joined(addrs)
    {
      if i >= MaxAddresses {
        break;
      }
      assert addrs[..i + 1][..i] == addrs[..i];
      joined := joined + Render(addrs[i]);
      if i < MaxAddresses - 1 {
        joined := joined + " ";
      }
      i := i + 1;
    }
    if i < MaxAddresses {
      assert addrs[..i] == addrs;
    }
  }

  /** Entries after the 3000th are never looked at. */
  lemma JoinedUsesFirstEntries(addrs: seq<AddressField>)
    requires |addrs| >= MaxAddresses
    ensures Joined(addrs) == Joined(addrs[..MaxAddresses])
  {
    assert addrs[..MaxAddresses][..MaxAddresses - 1] == addrs[..MaxAddresses - 1];
  }

  /** With 1 to 2999 entries the string ends in a space. */
  lemma JoinedTrailingSpace(addrs: seq<AddressField>)
    requires 0 < |addrs| < MaxAddresses
    ensures |Joined(addrs)| > 0 && Joined(addrs)[|Joined(addrs)| - 1] == ' '
  {
  }

  function CountSpaces(s: string): nat
  {
    if s == [] then 0 else (if s[0] == ' ' then 1 else 0) + CountSpaces(s[1..])
  }

  lemma {:induction false} CountSpacesAppend(a: string, b: string)
    ensures CountSpaces(a + b) == CountSpaces(a) + CountSpaces(b)
    decreases |a|
  {
    if a == [] {
      assert a + b == b;
    } else {
      assert (a + b)[1..] == a[1..] + b;
      CountSpacesAppend(a[1..], b);
    }
  }

  predicate NoSpace(a: AddressField)
  {
    ' ' !in Render(a)
  }

  lemma {:induction false} CountSpacesNone(x: string)
    requires ' ' !in x
    ensures CountSpaces(x) == 0
    decreases |x|
  {
    if x != [] {
      assert x[0] != ' ' && ' ' !in x[1..];
      CountSpacesNone(x[1..]);
    }
  }

  lemma {:induction false} SpacedSeparators(addrs: seq<AddressField>)
    requires forall i | 0 <= i < |addrs| :: NoSpace(addrs[i])
    ensures CountSpaces(Spaced(addrs)) == |addrs|
    decreases |addrs|
  {
    if addrs != [] {
      var init := addrs[..|addrs| - 1];
      SpacedSeparators(init);
      CountSpacesNone(Render(addrs[|addrs| - 1]));
      CountSpacesAppend(Spaced(init), Render(addrs[|addrs| - 1]));
      CountSpacesAppend(Spaced(init) + Render(addrs[|addrs| - 1]), " ");
      assert CountSpaces(" ") == 1 by {
        assert " "[1..] == [];
      }
    }
  }

  /**
   * When no address contains a space, the joined string holds one separator
   * per address below 3000 entries and exactly 2999 separators from 3000 on.
   */
  lemma JoinedSeparators(addrs: seq<AddressField>)
    requires forall i | 0 <= i < |addrs| :: NoSpace(addrs[i])
    ensures CountSpaces(Joined(addrs)) == if |addrs| < MaxAddresses then |addrs| else MaxAddresses - 1
  {
    if |addrs| < MaxAddresses {
      SpacedSeparators(addrs);
    } else {
      SpacedSeparators(addrs[..MaxAddresses - 1]);
      CountSpacesAppend(Spaced(addrs[..MaxAddresses - 1]), Render(addrs[MaxAddresses - 1]));
      CountSpacesNone(Render(addrs[MaxAddresses - 1]));
    }
  }

  /** The string cut at every space, as Go's strings.Split(s, " ") does: "a b " gives "a", "b" and "". */
  function Split(s: string): (r: seq<string>)
    ensures |r| >= 1
  {
    if s == [] then [""]
    else if s[0] == ' ' then [""] + Split(s[1..])
    else
      var rest := Split(s[1..]);
      [[s[0]] + rest[0]] + rest[1..]
  }

  lemma {:induction false} SplitAfterWord(x: string, rest: string)
    requires ' ' !in x
    ensures Split(x + " " + rest) == [x] + Split(rest)
    decreases |x|
  {
    if x == [] {
      assert x + " " + rest == [' '] + rest;
      assert ([' '] + rest)[1..] == rest;
    } else {
      assert (x + " " + rest)[1..] == x[1..] + " " + rest;
      assert ' ' !in x[1..];
      SplitAfterWord(x[1..], rest);
      assert [x[0]] + x[1..] == x;
    }
  }

  lemma {:induction false} SplitWord(x: string)
    requires ' ' !in x
    ensures Split(x) == [x]
    decreases |x|
  {
    if x != [] {
      assert ' ' !in x[1..];
      SplitWord(x[1..]);
      assert [x[0]] + x[1..] == x;
    }
  }

  /** The rendered addresses, in order. */
  function Rendered(addrs: seq<AddressField>): (r: seq<string>)
    ensures |r| == |addrs|
  {
    if addrs == [] then [] else Rendered(addrs[..|addrs| - 1]) + [Render(addrs[|addrs| - 1])]
  }

  lemma {:induction false} SplitSpaced(addrs: seq<AddressField>, tail: string)
    requires forall i | 0 <= i < |addrs| :: NoSpace(addrs[i])
    ensures Split(Spaced(addrs) + tail) == Rendered(addrs) + Split(tail)
    decreases |addrs|
  {
    if addrs == [] {
      assert Spaced(addrs) + tail == tail;
    } else {
      var init, last := addrs[..|addrs| - 1], Render(addrs[|addrs| - 1]);
      assert NoSpace(addrs[|addrs| - 1]);
      assert Spaced(addrs) + tail == Spaced(init) + (last + " " + tail);
      SplitSpaced(init, last + " " + tail);
      SplitAfterWord(last, tail);
    }
  }

  /**
   * When no address contains a space, cutting the joined string at its spaces
   * gives back the first 3000 addresses in file order; below 3000 entries the
   * trailing space adds one empty field at the end.
   */
  lemma JoinedSplitsBack(addrs: seq<AddressField>)
    requires forall i | 0 <= i < |addrs| :: NoSpace(addrs[i])
    ensures |addrs| < MaxAddresses ==> Split(Joined(addrs)) == Rendered(addrs) + [""]
    ensures |addrs| >= MaxAddresses ==> Split(Joined(addrs)) == Rendered(addrs[..MaxAddresses])
  {
    if |addrs| < MaxAddresses {
      SplitSpaced(addrs, "");
      assert Spaced(addrs) + "" == Spaced(addrs);
    } else {
      SplitTruncated(addrs);
    }
  }

  lemma SplitTruncated(addrs: seq<AddressField>)
    requires |addrs| >= MaxAddresses
    requires forall i | 0 <= i < |addrs| :: NoSpace(addrs[i])
    ensures Split(Joined(addrs)) == Rendered(addrs[..MaxAddresses])
  {
    var init, last := addrs[..MaxAddresses - 1], Render(addrs[MaxAddresses - 1]);
    assert NoSpace(addrs[MaxAddresses - 1]);
    forall i | 0 <= i < |init| ensures NoSpace(init[i]) {
      assert init[i] == addrs[i];
    }
    SplitSpaced(init, last);
    SplitWord(last);
    assert addrs[..MaxAddresses][..MaxAddresses - 1] == init;
  }

  /** The JSON file as the decoder sees it: a list of objects, each maybe with an `address` field. */
  datatype AddressFile = Unreadable | Unparsable | Entries(entries: seq<AddressField>)

  /** What the program prints: an error, or the total count and the command line. */
  datatype Printout = ReadError | ParseError | Printed(total: nat, command: string)

  /**
   * main: the count printed is that of the whole file, whatever the
   * truncation; the command is `tx "<joined>" 0.00001 4000`.
   */
  method FormatCommand(file: AddressFile) returns (out: Printout)
    ensures file.Unreadable? ==> out == ReadError
    ensures file.Unparsable? ==> out == ParseError
    ensures file.Entries? ==>
      out == Printed(|file.entries|, "tx \"" + Joined(file.entries) + "\" 0.00001 4000")
  {
    match file
    case Unreadable => return ReadError;
    case Unparsable => return ParseError;
    case Entries(entries) =>
      var joined := JoinAddresses(entries);
      return Printed(|entries|, "tx " + "\"" + joined + "\"" + " 0.00001" + " 4000");
  }
}
