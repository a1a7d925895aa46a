/**
 * Decoded JSON values as the client sees them, and the pieces of Python's
 * string conversion that the client relies on: `str()` of a value (what an
 * f-string `{v}` prints), `"\n".join`, decimal formatting of integers and
 * ASCII case mapping.
 */
module Values {

  datatype Option<T> = None | Some(value: T)

  /** A value produced by decoding a JSON body. Floats are not modelled. */
  datatype Value =
    | Null
    | Bool(b: bool)
    | Int(i: int)
    | Str(s: string)
    | List(items: seq<Value>)
    | Dict(fields: seq<(string, Value)>)

  /** The entries of a JSON object, in insertion order. */
  type Entries = seq<(string, Value)>

  predicate DistinctKeys(e: Entries) {
    forall i, j | 0 <= i < j < |e| :: e[i].0 != e[j].0
  }

  /** A decoded JSON object: a Python dict keeps one entry per key, in insertion order. */
  type Envelope = e: Entries | DistinctKeys(e)

  /** `d.get(k)`: the value stored under `k`, if any. */
  function Lookup(e: Entries, k: string): (r: Option<Value>)
    ensures r.None? <==> forall i | 0 <= i < |e| :: e[i].0 != k
    ensures r.Some? ==> exists i | 0 <= i < |e| :: e[i] == (k, r.value)
  {
    if e == [] then None
    else if e[0].0 == k then Some(e[0].1)
    else
      var r := Lookup(e[1..], k);
      assert r.Some? ==> exists i | 0 <= i < |e[1..]| :: e[1..][i] == (k, r.value);
      r
  }

  /** In a dict, the entry at position `i` is the one found under its key. */
  lemma LookupEntry(e: Envelope, i: nat)
    requires i < |e|
    ensures Lookup(e, e[i].0) == Some(e[i].1)
  {
  }

  // ---------------------------------------------------------------------
  // Decimal formatting of integers (`str(n)`, `'{}'.format(n)`)

  predicate IsDigit(c: char) { '0' <= c <= '9' }

  predicate AllDigits(s: string) { forall i | 0 <= i < |s| :: IsDigit(s[i]) }

  function DigitChar(d: nat): (c: char)
    requires d < 10
  {
    ('0' as int + d) as char
  }

  function DigitValue(c: char): nat
    requires IsDigit(c)
  {
    c as int - '0' as int
  }

  /** The decimal digits of `n`, most significant first, without leading zeros. */
  function NatToString(n: nat): (s: string)
    ensures |s| > 0 && AllDigits(s)
    ensures s[0] == '0' ==> n == 0
  {
    if n < 10 then [DigitChar(n)] else NatToString(n / 10) + [DigitChar(n % 10)]
  }

  function ParseNat(s: string): nat
    requires AllDigits(s)
  {
    if s == [] then 0 else ParseNat(s[..|s| - 1]) * 10 + DigitValue(s[|s| - 1])
  }

  lemma {:induction false} NatToStringRoundTrip(n: nat)
    ensures ParseNat(NatToString(n)) == n
  {
    if n >= 10 {
      NatToStringRoundTrip(n / 10);
      var s := NatToString(n);
      assert s[..|s| - 1] == NatToString(n / 10);
    }
  }

  /** Python's `str(i)` for an int: an optional minus sign and the digits of `|i|`. */
  function IntToString(i: int): string
  {
    if i < 0 then "-" + NatToString(-i) else NatToString(i)
  }

  predicate IsIntLiteral(s: string) {
    |s| > 0 && (AllDigits(s) || (s[0] == '-' && AllDigits(s[1..])))
  }

  /** Python's `int(s)` on the strings `str` produces. */
  function ParseInt(s: string): int
    requires IsIntLiteral(s)
  {
    if s[0] == '-' then -(ParseNat(s[1..]) as int) else ParseNat(s)
  }

  /** Formatting an int is undone by parsing it back. */
  lemma IntToStringRoundTrip(i: int)
    ensures IsIntLiteral(IntToString(i)) && ParseInt(IntToString(i)) == i
  {
    if i < 0 {
      var s := IntToString(i);
      assert s[1..] == NatToString(-i);
      NatToStringRoundTrip(-i);
    } else {
      NatToStringRoundTrip(i);
    }
  }

  /** Two different ints never print the same. */
  lemma IntToStringInjective(i: int, j: int)
    requires IntToString(i) == IntToString(j)
    ensures i == j
  {
    IntToStringRoundTrip(i);
    IntToStringRoundTrip(j);
  }

  // ---------------------------------------------------------------------
  // Joining and splitting lines

  /** `sep.join(parts)` */
  function Join(sep: string, parts: seq<string>): string
  {
    if |parts| == 0 then ""
    else if |parts| == 1 then parts[0]
    else parts[0] + sep + Join(sep, parts[1..])
  }

  /** The position in `Join(sep, parts)` at which `parts[k]` starts. */
  function JoinOffset(sep: string, parts: seq<string>, k: nat): nat
    requires k < |parts|
  {
    if k == 0 then 0 else |parts[0]| + |sep| + JoinOffset(sep, parts[1..], k - 1)
  }

  predicate OccursAt(needle: string, hay: string, off: nat) {
    off + |needle| <= |hay| && hay[off..off + |needle|] == needle
  }

  ghost predicate Contains(hay: string, needle: string) {
    exists off: nat :: OccursAt(needle, hay, off)
  }

  lemma OccursAtTrans(a: string, b: string, c: string, i: nat, j: nat)
    requires OccursAt(a, b, i) && OccursAt(b, c, j)
    ensures OccursAt(a, c, j + i)
  {
    forall t | 0 <= t < |a| ensures c[j + i + t] == a[t] {
      assert c[j..j + |b|][i + t] == b[i + t];
      assert b[i..i + |a|][t] == a[t];
    }
    assert c[j + i..j + i + |a|] == a;
  }

  /** Every part is found, unchanged, at its offset in the joined string. */
  lemma {:induction false} JoinPartAt(sep: string, parts: seq<string>, k: nat)
    requires k < |parts|
    ensures OccursAt(parts[k], Join(sep, parts), JoinOffset(sep, parts, k))
  {
    if k > 0 {
      var rest := Join(sep, parts[1..]);
      JoinPartAt(sep, parts[1..], k - 1);
      var head := parts[0] + sep;
      assert Join(sep, parts) == head + rest;
      OccursAtTrans(parts[k], rest, head + rest, JoinOffset(sep, parts[1..], k - 1), |head|);
    }
  }

  /** The index of the first `c` in `s`. */
  function FirstIndex(s: string, c: char): (k: nat)
    requires c in s
    ensures k < |s| && s[k] == c && c !in s[..k]
  {
    if s[0] == c then 0
    else
      var k := FirstIndex(s[1..], c);
      assert s[..k + 1] == [s[0]] + s[1..][..k];
      k + 1
  }

  /** `s.split(c)` for a single separator character. */
  function Split(s: string, c: char): seq<string>
    decreases |s|
  {
    if c !in s then [s]
    else
      var k := FirstIndex(s, c);
      [s[..k]] + Split(s[k + 1..], c)
  }

  /** Splitting on a character that occurs in no part undoes the join. */
  lemma {:induction false} SplitJoin(c: char, parts: seq<string>)
    requires |parts| > 0
    requires forall k | 0 <= k < |parts| :: c !in parts[k]
    ensures Split(Join([c], parts), c) == parts
  {
    if |parts| > 1 {
      var s := Join([c], parts);
      var rest := Join([c], parts[1..]);
      assert s == parts[0] + [c] + rest;
      assert s[|parts[0]|] == c;
      assert s[..|parts[0]|] == parts[0];
      assert FirstIndex(s, c) == |parts[0]|;
      assert s[|parts[0]| + 1..] == rest;
      SplitJoin(c, parts[1..]);
    }
  }

  // ---------------------------------------------------------------------
  // Python's repr() of a string

  function HexDigit(d: nat): (c: char)
    requires d < 16
  {
    if d < 10 then DigitChar(d) else ('a' as int + (d - 10)) as char
  }

  function HexValue(c: char): nat {
    if '0' <= c <= '9' then c as int - '0' as int
    else if 'a' <= c <= 'f' then c as int - 'a' as int + 10
    else 0
  }

  /** One character inside a quoted repr: the quote and the backslash are
      escaped, tab, newline and carriage return get their short escapes, any
      other ASCII control character becomes `\xHH`. */
  function EscapeChar(c: char, quote: char): string {
    if c == quote || c == '\\' then ['\\', c]
    else if c == '\t' then "\\t"
    else if c == '\n' then "\\n"
    else if c == '\r' then "\\r"
    else if c < ' ' || c as int == 127 then ['\\', 'x', HexDigit(c as int / 16), HexDigit(c as int % 16)]
    else [c]
  }

  function EscapeAll(s: string, quote: char): string {
    if s == [] then [] else EscapeChar(s[0], quote) + EscapeAll(s[1..], quote)
  }

  /** Single quotes, unless the string holds a single quote and no double one. */
  function QuoteFor(s: string): char {
    if '\'' in s && '"' !in s then '"' else '\''
  }

  /** `repr(s)` for a string. */
  function StrRepr(s: string): string {
    var q := QuoteFor(s);
    [q] + EscapeAll(s, q) + [q]
  }

  /** Reading the escapes of a repr back: the inverse of `EscapeAll`. */
  function Unescape(t: string): Option<string> {
    if t == [] then Some([])
    else if t[0] != '\\' then
      match Unescape(t[1..])
      case Some(rest) => Some([t[0]] + rest)
      case None => None
    else if |t| < 2 then None
    else if t[1] == 'x' then
      if |t| < 4 then None
      else
        match Unescape(t[4..])
        case Some(rest) => Some([(HexValue(t[2]) * 16 + HexValue(t[3])) as char] + rest)
        case None => None
    else
      var c := if t[1] == 't' then '\t' else if t[1] == 'n' then '\n' else if t[1] == 'r' then '\r' else t[1];
      match Unescape(t[2..])
      case Some(rest) => Some([c] + rest)
      case None => None
  }

  lemma UnescapeChar(c: char, quote: char, rest: string)
    requires quote == '\'' || quote == '"'
    ensures Unescape(EscapeChar(c, quote) + rest) ==
              match Unescape(rest) case Some(r) => Some([c] + r) case None => None
  {
    var e := EscapeChar(c, quote);
    assert (e + rest)[|e|..] == rest;
    if c < ' ' || c as int == 127 {
      if !(c == quote || c == '\\' || c == '\t' || c == '\n' || c == '\r') {
        var hi, lo := c as int / 16, c as int % 16;
        assert HexValue(HexDigit(hi)) == hi;
        assert HexValue(HexDigit(lo)) == lo;
      }
    }
  }

  /** The escapes of a repr read back to the original string. */
  lemma {:induction false} UnescapeEscapeAll(s: string, quote: char)
    requires quote == '\'' || quote == '"'
    ensures Unescape(EscapeAll(s, quote)) == Some(s)
  {
    if s != [] {
      UnescapeEscapeAll(s[1..], quote);
      UnescapeChar(s[0], quote, EscapeAll(s[1..], quote));
      assert [s[0]] + s[1..] == s;
    }
  }

  /** `repr` of a string is its quote, the escaped text and the quote again,
      and the text reads back to the string. */
  lemma StrReprRoundTrip(s: string)
    ensures var r := StrRepr(s);
            |r| >= 2 && r[0] == r[|r| - 1] == QuoteFor(s) && Unescape(r[1..|r| - 1]) == Some(s)
  {
    var r := StrRepr(s);
    assert r[1..|r| - 1] == EscapeAll(s, QuoteFor(s));
    UnescapeEscapeAll(s, QuoteFor(s));
  }

  lemma {:induction false} EscapeAllHasNoNewline(s: string, quote: char)
    requires quote == '\'' || quote == '"'
    ensures '\n' !in EscapeAll(s, quote)
  {
    if s != [] {
      EscapeAllHasNoNewline(s[1..], quote);
      var c := s[0];
      if c < ' ' || c as int == 127 {
        assert HexDigit(c as int / 16) != '\n' && HexDigit(c as int % 16) != '\n';
      }
      assert '\n' !in EscapeChar(c, quote);
    }
  }

  /** `repr` of a string is always one line. */
  lemma StrReprHasNoNewline(s: string)
    ensures '\n' !in StrRepr(s)
  {
    EscapeAllHasNoNewline(s, QuoteFor(s));
  }

  // ---------------------------------------------------------------------
  // Python's str() and repr() of decoded values

  /** `str(v)`, which is also what an f-string prints for `{v}`. */
  function PyStr(v: Value): string
    decreases v, 0
  {
    match v
    case Null => "None"
    case Bool(b) => if b then "True" else "False"
    case Int(i) => IntToString(i)
    case Str(s) => s
    case List(items) =>
      "[" + Join(", ", seq(|items|, k requires 0 <= k < |items| => PyRepr(items[k]))) + "]"
    case Dict(fields) =>
      "{" + Join(", ", seq(|fields|, k requires 0 <= k < |fields| =>
                                   StrRepr(fields[k].0) + ": " + PyRepr(fields[k].1))) + "}"
  }

  /** `repr(v)`: as `str(v)`, except that a string is quoted and escaped. */
  function PyRepr(v: Value): string
    decreases v, 1
  {
    if v.Str? then StrRepr(v.s) else PyStr(v)
  }

  lemma {:induction false} JoinAvoids(sep: string, parts: seq<string>, c: char)
    requires c !in sep
    requires forall k | 0 <= k < |parts| :: c !in parts[k]
    ensures c !in Join(sep, parts)
  {
    if |parts| > 1 {
      JoinAvoids(sep, parts[1..], c);
    }
  }

  /** `repr` of any decoded value is one line: nested strings print their
      newlines as escapes. */
  lemma {:induction false} ReprHasNoNewline(v: Value)
    ensures '\n' !in PyRepr(v)
    decreases v
  {
    match v
    case Str(s) => StrReprHasNoNewline(s);
    case List(items) =>
      var parts := seq(|items|, k requires 0 <= k < |items| => PyRepr(items[k]));
      forall k | 0 <= k < |items| ensures '\n' !in parts[k] {
        ReprHasNoNewline(items[k]);
      }
      JoinAvoids(", ", parts, '\n');
    case Dict(fields) =>
      var parts := seq(|fields|, k requires 0 <= k < |fields| =>
                                 StrRepr(fields[k].0) + ": " + PyRepr(fields[k].1));
      forall k | 0 <= k < |fields| ensures '\n' !in parts[k] {
        StrReprHasNoNewline(fields[k].0);
        assert fields[k].1 < v;
        ReprHasNoNewline(fields[k].1);
      }
      JoinAvoids(", ", parts, '\n');
    case Int(i) =>
      assert AllDigits(NatToString(if i < 0 then -i else i));
    case _ =>
  }

  /** `str(v)` spans several lines only for a string holding a newline. */
  lemma StrHasNewlineOnlyInStrings(v: Value)
    ensures '\n' in PyStr(v) ==> v.Str? && '\n' in v.s
  {
    if !v.Str? {
      ReprHasNoNewline(v);
    }
  }

  /** A newline nested in a list is printed as the two characters `\n`. */
  lemma NestedNewlineIsEscaped()
    ensures PyStr(List([Str("a\nb")])) == "['a\\nb']"
  {
    assert QuoteFor("a\nb") == '\'';
    assert EscapeAll("a\nb", '\'') == "a\\nb";
    assert PyRepr(Str("a\nb")) == "'a\\nb'";
    var parts := seq(1, k requires 0 <= k < 1 => PyRepr([Str("a\nb")][k]));
    assert parts == ["'a\\nb'"];
    assert Join(", ", parts) == "'a\\nb'";
  }

  /** The line `f"{k}: {v}"` for one entry. */
  function EntryLine(entry: (string, Value)): string {
    entry.0 + ": " + PyStr(entry.1)
  }

  function EntryLines(e: Entries): seq<string> {
    seq(|e|, i requires 0 <= i < |e| => EntryLine(e[i]))
  }

  /** `"\n".join([f"{k}: {v}" for k, v in d.items()])` */
  function RenderEntries(e: Entries): string {
    Join("\n", EntryLines(e))
  }

  /** The rendering names every key and shows every entry's line. */
  lemma RenderShowsEntry(e: Entries, i: nat)
    requires i < |e|
    ensures Contains(RenderEntries(e), EntryLine(e[i]))
    ensures Contains(RenderEntries(e), e[i].0)
  {
    var lines := EntryLines(e);
    var off := JoinOffset("\n", lines, i);
    JoinPartAt("\n", lines, i);
    assert OccursAt(EntryLine(e[i]), RenderEntries(e), off);
    assert OccursAt(e[i].0, EntryLine(e[i]), 0);
    OccursAtTrans(e[i].0, EntryLine(e[i]), RenderEntries(e), 0, off);
    assert OccursAt(e[i].0, RenderEntries(e), off + 0);
  }

  /** A value that spans no lines: anything but a string holding a newline. */
  predicate OneLine(v: Value) {
    !(v.Str? && '\n' in v.s)
  }

  /** When no key and no top-level string value holds a newline, splitting
      the rendering on newlines gives back one line per entry, in order. */
  lemma RenderSplitsIntoEntries(e: Entries)
    requires |e| > 0
    requires forall i | 0 <= i < |e| :: '\n' !in e[i].0 && OneLine(e[i].1)
    ensures Split(RenderEntries(e), '\n') == EntryLines(e)
  {
    var lines := EntryLines(e);
    forall k | 0 <= k < |lines| ensures '\n' !in lines[k] {
      StrHasNewlineOnlyInStrings(e[k].1);
      assert lines[k] == e[k].0 + ": " + PyStr(e[k].1);
    }
    SplitJoin('\n', lines);
  }

  // ---------------------------------------------------------------------
  // ASCII case mapping (`str.lower`, `str.capitalize`)

  function LowerChar(c: char): char {
    if 'A' <= c <= 'Z' then (c as int + 32) as char else c
  }

  function UpperChar(c: char): char {
    if 'a' <= c <= 'z' then (c as int - 32) as char else c
  }

  function Lower(s: string): string {
    seq(|s|, i requires 0 <= i < |s| => LowerChar(s[i]))
  }

  function Capitalize(s: string): string {
    if s == [] then [] else [UpperChar(s[0])] + Lower(s[1..])
  }
}
