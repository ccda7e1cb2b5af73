/** The string operations the SQL builders are made of: `sep.join(...)`,
    the `s += item + ','` loops followed by `s[:-1]`, `str(...)` of a value,
    and the inverse operations (splitting, parsing) that show the
    generated text can be read back. */
module Text {
  import opened Values

  /** Python's `sep.join(items)`. */
  function Join(sep: string, items: seq<string>): string
  {
    if |items| == 0 then ""
    else if |items| == 1 then items[0]
    else items[0] + sep + Join(sep, items[1..])
  }

  /** What a loop doing `s += item + sep` for every item appends to `s`. */
  function Terminated(items: seq<string>, sep: string): string
  {
    if |items| == 0 then "" else items[0] + sep + Terminated(items[1..], sep)
  }

  /** Python's `s[:-1]`: all but the last character; empty stays empty. */
  function DropLast(s: string): (r: string)
    ensures |s| > 0 ==> s == r + [s[|s| - 1]]
    ensures |s| == 0 ==> r == ""
  {
    if |s| == 0 then "" else s[..|s| - 1]
  }

  /** One more loop iteration appends one more item and its separator. */
  lemma {:induction false} TerminatedSnoc(items: seq<string>, x: string, sep: string)
    ensures Terminated(items + [x], sep) == Terminated(items, sep) + x + sep
  {
    if |items| == 0 {
      assert items + [x] == [x];
    } else {
      assert (items + [x])[1..] == items[1..] + [x];
      TerminatedSnoc(items[1..], x, sep);
    }
  }

  /** Every item followed by the separator is the join plus one separator. */
  lemma {:induction false} TerminatedIsJoin(items: seq<string>, sep: string)
    requires |items| > 0
    ensures Terminated(items, sep) == Join(sep, items) + sep
  {
    if |items| > 1 {
      TerminatedIsJoin(items[1..], sep);
    }
  }

  /** The `[:-1]` idiom: after a loop that appended `item + sep` for every
      item, dropping the last character leaves exactly the joined items; with
      no items it removes the last character of the prefix instead. */
  lemma DropTrailingSeparator(prefix: string, items: seq<string>, sep: char)
    ensures DropLast(prefix + Terminated(items, [sep]))
         == if |items| == 0 then DropLast(prefix) else prefix + Join([sep], items)
  {
    if |items| == 0 {
      assert prefix + Terminated(items, [sep]) == prefix;
    } else {
      TerminatedIsJoin(items, [sep]);
      assert prefix + Terminated(items, [sep]) == (prefix + Join([sep], items)) + [sep];
    }
  }

  /** The position of the first `c` in `s`, or `|s|` when there is none. */
  function IndexOf(s: string, c: char): (k: nat)
    ensures k <= |s|
    ensures forall j :: 0 <= j < k ==> s[j] != c
    ensures k < |s| ==> s[k] == c
  {
    if |s| == 0 then 0 else if s[0] == c then 0 else 1 + IndexOf(s[1..], c)
  }

  /** Python's `s.split(c)`: the pieces between the occurrences of `c`. */
  function Split(s: string, c: char): (parts: seq<string>)
    ensures |parts| >= 1
    decreases |s|
  {
    var k := IndexOf(s, c);
    if k == |s| then [s] else [s[..k]] + Split(s[k + 1..], c)
  }

  /** Splitting a join gives the items back, provided no item contains the
      separator. */
  lemma {:induction false} SplitJoin(items: seq<string>, c: char)
    requires |items| > 0
    requires forall i :: 0 <= i < |items| ==> c !in items[i]
    ensures Split(Join([c], items), c) == items
  {
    var s := Join([c], items);
    if |items| == 1 {
      assert s == items[0];
    } else {
      var rest := Join([c], items[1..]);
      assert s == items[0] + [c] + rest;
      var k := IndexOf(s, c);
      assert s[|items[0]|] == c;
      assert k == |items[0]|;
      assert s[..k] == items[0];
      assert s[k + 1..] == rest;
      SplitJoin(items[1..], c);
    }
  }

  /** `n` copies of `x`, as the `%s` placeholders of an INSERT. */
  function Repeat(x: string, n: nat): seq<string>
  {
    seq(n, _ => x)
  }

  predicate IsDigits(s: string)
  {
    forall i :: 0 <= i < |s| ==> '0' <= s[i] <= '9'
  }

  function Digit(d: nat): (ch: char)
    requires d < 10
    ensures '0' <= ch <= '9' && ch as int - '0' as int == d
  {
    ('0' as int + d) as char
  }

  /** The decimal digits of `n`, without leading zeros. */
  function NatStr(n: nat): (s: string)
    ensures |s| > 0 && IsDigits(s)
    ensures s[0] == '0' ==> s == "0"
  {
    if n < 10 then [Digit(n)] else NatStr(n / 10) + [Digit(n % 10)]
  }

  /** The number a string of decimal digits denotes. */
  function ParseNat(s: string): nat
    requires IsDigits(s)
  {
    if |s| == 0 then 0 else 10 * ParseNat(s[..|s| - 1]) + (s[|s| - 1] as int - '0' as int)
  }

  /** Python's `str(i)` for an `int`. */
  function IntStr(i: int): string
  {
    if i < 0 then "-" + NatStr(-i) else NatStr(i)
  }

  /** Reads back what `IntStr` writes; `None` for anything that is not an
      optional minus sign followed by at least one digit. */
  function ParseInt(s: string): Option<int>
  {
    if |s| > 1 && s[0] == '-' && IsDigits(s[1..]) then Some(0 - ParseNat(s[1..]) as int)
    else if |s| > 0 && IsDigits(s) then Some(ParseNat(s))
    else None
  }

  lemma {:induction false} ParseNatStr(n: nat)
    ensures ParseNat(NatStr(n)) == n
  {
    if n >= 10 {
      ParseNatStr(n / 10);
    }
  }

  /** Rendering an integer as text loses nothing: the text parses back to it. */
  lemma IntStrRoundTrip(i: int)
    ensures ParseInt(IntStr(i)) == Some(i)
  {
    if i < 0 {
      ParseNatStr(-i);
    } else {
      var t := NatStr(i);
      ParseNatStr(i);
      assert ParseInt(t) == Some(ParseNat(t));
    }
  }

  /** Python's `str(v)`. */
  function PyStr(v: Value): string
  {
    match v
    case VNone => "None"
    case VBool(b) => if b then "True" else "False"
    case VInt(i) => IntStr(i)
    case VStr(s) => s
  }
}
