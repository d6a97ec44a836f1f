/** Character classes, substrings, sequence helpers and the few pieces of
    Python string formatting that the dialog facade relies on.
    Characters are classified over ASCII only: a Python `re` pattern
    applied to a `str` also classifies non-ASCII code points, which this
    model does not. */
module Text {

  datatype Option<T> = None | Some(value: T)

  /** `[a-z]` */
  predicate IsLower(c: char) { 'a' <= c <= 'z' }

  /** `[A-Z]` */
  predicate IsUpper(c: char) { 'A' <= c <= 'Z' }

  /** `\d`, restricted to ASCII digits */
  predicate IsDigit(c: char) { '0' <= c <= '9' }

  /** `\w`: letters, digits and the underscore */
  predicate IsWordChar(c: char) { IsLower(c) || IsUpper(c) || IsDigit(c) || c == '_' }

  /** `\s` over ASCII: space, `\t`, `\n`, `\v`, `\f`, `\r` and the
      information separators `\x1c`..`\x1f`, which Python treats as
      whitespace too. */
  predicate IsSpace(c: char) {
    c == ' ' || ('\t' <= c <= '\r') || ('\U{1C}' <= c <= '\U{1F}')
  }

  /** Python's `item in s` for two strings: `item` occurs as a contiguous
      piece of `s` (the empty string occurs in every string). */
  predicate IsSubstring(item: string, s: string) {
    exists i | 0 <= i <= |s| :: OccursAt(item, s, i)
  }

  /** `item` occurs in `s` starting at index `i`. */
  predicate OccursAt(item: string, s: string, i: nat) {
    i + |item| <= |s| && s[i..i + |item|] == item
  }

  /** Concatenation regroups; stated once so that callers need not
      compare the elements of long concatenations. */
  lemma AppendAssoc<T>(a: seq<T>, b: seq<T>, c: seq<T>)
    ensures (a + b) + c == a + (b + c)
  {
  }

  /** Python's `a // b` for integers: the quotient rounded towards minus
      infinity (Dafny's `/` is Euclidean, which agrees only when b > 0). */
  function FloorDiv(a: int, b: int): (q: int)
    requires b != 0
    ensures b > 0 ==> q == a / b
    ensures b > 0 && a >= 0 ==> q >= 0
    ensures b < 0 ==> q == -((-a) / b)
  {
    if b > 0 then a / b else (-a) / (-b)
  }

  /** Python's `list.index(x)`: the position of the first occurrence. */
  function FirstIndex(s: seq<string>, x: string): (i: nat)
    requires x in s
    ensures i < |s| && s[i] == x && x !in s[..i]
  {
    if s[0] == x then 0
    else
      assert s[1..][..FirstIndex(s[1..], x)] == s[1..FirstIndex(s[1..], x) + 1];
      FirstIndex(s[1..], x) + 1
  }

  /** Python's `list.remove(x)`: drops the first occurrence of `x`, keeping
      every other element in order. */
  function RemoveFirst(s: seq<string>, x: string): (r: seq<string>)
    requires x in s
    ensures |r| == |s| - 1
    ensures multiset(r) == multiset(s) - multiset{x}
    ensures r == s[..FirstIndex(s, x)] + s[FirstIndex(s, x) + 1..]
  {
    var i := FirstIndex(s, x);
    assert s == s[..i] + [s[i]] + s[i + 1..];
    s[..i] + s[i + 1..]
  }

  /** The decimal digits of a natural number, as `str(n)` writes them:
      no leading zero, and a single digit exactly below ten. */
  function NatToString(n: nat): (s: string)
    ensures |s| > 0
    ensures forall i | 0 <= i < |s| :: IsDigit(s[i])
    ensures s[0] == '0' <==> n == 0
    ensures |s| == 1 <==> n < 10
  {
    if n < 10 then ['0' + n as char]
    else NatToString(n / 10) + ['0' + (n % 10) as char]
  }

  /** The number a string of decimal digits denotes. */
  function DecimalValue(s: string): (n: int)
    requires forall i | 0 <= i < |s| :: IsDigit(s[i])
    ensures n >= 0
  {
    if s == [] then 0
    else
      assert IsDigit(s[|s| - 1]);
      DecimalValue(s[..|s| - 1]) * 10 + (s[|s| - 1] as int - '0' as int)
  }

  /** The digits `str(n)` writes denote `n`. */
  lemma {:induction false} NatToStringValue(n: nat)
    ensures DecimalValue(NatToString(n)) == n
  {
    if n >= 10 {
      var s := NatToString(n);
      assert s[..|s| - 1] == NatToString(n / 10);
      NatToStringValue(n / 10);
    }
  }

  /** `str(i)` / `f"{i}"` for an integer: a minus sign exactly for a
      negative number, then the digits of its magnitude. */
  function IntToString(i: int): (s: string)
    ensures |s| > 0
    ensures s[0] == '-' <==> i < 0
    ensures i >= 0 ==> s == NatToString(i)
    ensures i < 0 ==> s[1..] == NatToString(-i)
  {
    if i < 0 then "-" + NatToString(-i) else NatToString(i)
  }

  /** The text `str(i)` writes reads back as `i`. */
  lemma IntToStringValue(i: int)
    ensures var s := IntToString(i);
      (i >= 0 ==> DecimalValue(s) == i) && (i < 0 ==> DecimalValue(s[1..]) == -i)
  {
    if i >= 0 {
      NatToStringValue(i);
    } else {
      NatToStringValue(-i);
    }
  }

  /** `sep.join(items)` */
  function Join(sep: string, items: seq<string>): string {
    if items == [] then ""
    else if |items| == 1 then items[0]
    else items[0] + sep + Join(sep, items[1..])
  }

  /** Every item occurs in the joined string, and nothing at all is
      written for no items. */
  lemma {:induction false} JoinHasItems(sep: string, items: seq<string>, k: nat)
    requires k < |items|
    ensures IsSubstring(items[k], Join(sep, items))
    ensures Join(sep, []) == ""
  {
    var joined := Join(sep, items);
    if k == 0 {
      assert OccursAt(items[0], joined, 0);
    } else {
      var rest := Join(sep, items[1..]);
      JoinHasItems(sep, items[1..], k - 1);
      var i :| 0 <= i <= |rest| && OccursAt(items[k], rest, i);
      OccursAfter(items[k], items[0] + sep, rest, i);
    }
  }

  /** An occurrence stays an occurrence when text is put in front. */
  lemma OccursAfter(item: string, prefix: string, s: string, i: nat)
    requires OccursAt(item, s, i)
    ensures OccursAt(item, prefix + s, |prefix| + i)
  {
    assert (prefix + s)[|prefix| + i..|prefix| + i + |item|] == s[i..i + |item|];
  }

  /** Each item wrapped in the given quote character. */
  function QuoteAll(quote: string, items: seq<string>): (r: seq<string>)
    ensures |r| == |items|
  {
    if items == [] then [] else [quote + items[0] + quote] + QuoteAll(quote, items[1..])
  }

  /** `QuoteAll` keeps the items in order, each between two quotes. */
  lemma {:induction false} QuoteAllItems(quote: string, items: seq<string>, k: nat)
    requires k < |items|
    ensures QuoteAll(quote, items)[k] == quote + items[k] + quote
  {
    if k > 0 {
      QuoteAllItems(quote, items[1..], k - 1);
    }
  }

  // ----- `repr` of strings and lists of strings -----

  /** Characters `repr` writes as `\xhh`: the ASCII control characters
      other than tab, line feed and carriage return, DEL, the C1 controls,
      the no-break space and the soft hyphen. */
  predicate HexEscaped(c: char) {
    c < ' ' || ('\U{7F}' <= c <= '\U{A0}') || c == '\U{AD}'
  }

  /** A lower-case hexadecimal digit. */
  function HexDigit(n: nat): (d: char)
    requires n < 16
  {
    if n < 10 then '0' + n as char else 'a' + (n - 10) as char
  }

  /** The value of a hexadecimal digit, either case. */
  function HexValue(d: char): (v: Option<nat>)
    ensures v.Some? ==> v.value < 16
  {
    if '0' <= d <= '9' then Some((d - '0') as nat)
    else if 'a' <= d <= 'f' then Some((d - 'a') as nat + 10)
    else if 'A' <= d <= 'F' then Some((d - 'A') as nat + 10)
    else None
  }

  lemma HexRoundTrip(n: nat)
    requires n < 16
    ensures HexValue(HexDigit(n)) == Some(n)
  {
  }

  /** How `repr` writes one character inside a string delimited by
      `quote`: a backslash, the delimiter, tab, line feed and carriage
      return get a backslash escape, the characters of `HexEscaped` get
      `\xhh`, and every other character stands for itself. */
  function Escape(c: char, quote: char): (e: string)
    ensures |e| >= 1 && (e[0] == '\\' <==> c == '\\' || c == quote || HexEscaped(c))
  {
    if c == '\\' then "\\\\"
    else if c == quote then ['\\', quote]
    else if c == '\t' then "\\t"
    else if c == '\n' then "\\n"
    else if c == '\r' then "\\r"
    else if HexEscaped(c) then ['\\', 'x', HexDigit(c as nat / 16), HexDigit(c as nat % 16)]
    else [c]
  }

  function EscapeAll(s: string, quote: char): string {
    if s == [] then [] else Escape(s[0], quote) + EscapeAll(s[1..], quote)
  }

  /** The delimiter `repr` picks: a double quote when the string holds a
      single quote and no double quote, a single quote otherwise. */
  function ReprQuote(s: string): (q: char)
    ensures q == '"' <==> '\'' in s && '"' !in s
    ensures q == '\'' || q == '"'
  {
    if '\'' in s && '"' !in s then '"' else '\''
  }

  /** `repr(s)` of a string. */
  function StrRepr(s: string): (r: string)
    ensures |r| >= 2 && r[0] == r[|r| - 1] == ReprQuote(s)
  {
    [ReprQuote(s)] + EscapeAll(s, ReprQuote(s)) + [ReprQuote(s)]
  }

  /** `repr(items)` of a list of strings: `['a', "b'c"]`. */
  function ListRepr(items: seq<string>): (r: string)
    ensures |r| >= 2 && r[0] == '[' && r[|r| - 1] == ']'
  {
    "[" + Join(", ", ReprAll(items)) + "]"
  }

  function ReprAll(items: seq<string>): (r: seq<string>)
    ensures |r| == |items|
  {
    if items == [] then [] else [StrRepr(items[0])] + ReprAll(items[1..])
  }

  lemma {:induction false} ReprAllItems(items: seq<string>, k: nat)
    requires k < |items|
    ensures ReprAll(items)[k] == StrRepr(items[k])
  {
    if k > 0 {
      ReprAllItems(items[1..], k - 1);
    }
  }

  /** The list's `repr` holds the `repr` of each item. */
  lemma ListReprItems(items: seq<string>, k: nat)
    requires k < |items|
    ensures IsSubstring(StrRepr(items[k]), ListRepr(items))
  {
    var joined := Join(", ", ReprAll(items));
    ReprAllItems(items, k);
    JoinHasItems(", ", ReprAll(items), k);
    var i :| 0 <= i <= |joined| && OccursAt(StrRepr(items[k]), joined, i);
    OccursAfter(StrRepr(items[k]), "[", joined, i);
    OccursBefore(StrRepr(items[k]), "[" + joined, "]", 1 + i);
  }

  /** An occurrence stays an occurrence when text is put after it. */
  lemma OccursBefore(item: string, s: string, suffix: string, i: nat)
    requires OccursAt(item, s, i)
    ensures OccursAt(item, s + suffix, i)
  {
    assert (s + suffix)[i..i + |item|] == s[i..i + |item|];
  }

  /** Reading escapes back, as a Python string literal does; `None` for
      text no `repr` could have written. */
  function Unescape(t: string): Option<string>
    decreases |t|
  {
    if t == [] then Some([])
    else if t[0] != '\\' then Prepend(t[0], Unescape(t[1..]))
    else if |t| < 2 then None
    else if t[1] == '\\' || t[1] == '\'' || t[1] == '"' then Prepend(t[1], Unescape(t[2..]))
    else if t[1] == 't' then Prepend('\t', Unescape(t[2..]))
    else if t[1] == 'n' then Prepend('\n', Unescape(t[2..]))
    else if t[1] == 'r' then Prepend('\r', Unescape(t[2..]))
    else if t[1] == 'x' && |t| >= 4 && HexValue(t[2]).Some? && HexValue(t[3]).Some? then
      Prepend((HexValue(t[2]).value * 16 + HexValue(t[3]).value) as char, Unescape(t[4..]))
    else None
  }

  function Prepend(c: char, rest: Option<string>): Option<string> {
    if rest.None? then None else Some([c] + rest.value)
  }

  /** The escapes of one character read back as that character, whatever
      follows. */
  lemma UnescapeOne(c: char, quote: char, rest: string)
    requires quote == '\'' || quote == '"'
    ensures Unescape(Escape(c, quote) + rest) == Prepend(c, Unescape(rest))
  {
    if c == '\\' || c == quote || c == '\t' || c == '\n' || c == '\r' {
      assert (Escape(c, quote) + rest)[2..] == rest;
    } else if HexEscaped(c) {
      UnescapeHex(c, rest);
    } else {
      assert (Escape(c, quote) + rest)[1..] == rest;
    }
  }

  /** `\xhh` is read back as the character with that code. */
  lemma UnescapeHex(c: char, rest: string)
    requires HexEscaped(c)
    ensures Unescape(['\\', 'x', HexDigit(c as nat / 16), HexDigit(c as nat % 16)] + rest)
         == Prepend(c, Unescape(rest))
  {
    var t := ['\\', 'x', HexDigit(c as nat / 16), HexDigit(c as nat % 16)] + rest;
    HexRoundTrip(c as nat / 16);
    HexRoundTrip(c as nat % 16);
    assert t[4..] == rest;
  }

  /** Escaping loses nothing: the escaped text reads back as the string. */
  lemma {:induction false} UnescapeEscapeAll(s: string, quote: char)
    requires quote == '\'' || quote == '"'
    ensures Unescape(EscapeAll(s, quote)) == Some(s)
  {
    if s != [] {
      var rest := EscapeAll(s[1..], quote);
      assert EscapeAll(s, quote) == Escape(s[0], quote) + rest;
      UnescapeEscapeAll(s[1..], quote);
      UnescapeOne(s[0], quote, rest);
      assert [s[0]] + s[1..] == s;
    }
  }

  /** `repr` of a string is the delimiter, the escaped string, and the
      delimiter again, and the part between the delimiters reads back as
      the string. */
  lemma StrReprRoundTrip(s: string)
    ensures var r := StrRepr(s);
      r[0] == r[|r| - 1] == ReprQuote(s) && Unescape(r[1..|r| - 1]) == Some(s)
  {
    var r := StrRepr(s);
    assert r[1..|r| - 1] == EscapeAll(s, ReprQuote(s));
    UnescapeEscapeAll(s, ReprQuote(s));
  }

  /** A string with nothing to escape and no single quote is written
      between single quotes as it is. */
  lemma {:induction false} StrReprPlain(s: string)
    requires forall i | 0 <= i < |s| :: s[i] != '\\' && s[i] != '\'' && !HexEscaped(s[i])
    ensures StrRepr(s) == "'" + s + "'"
  {
    EscapePlain(s);
  }

  lemma {:induction false} EscapePlain(s: string)
    requires forall i | 0 <= i < |s| :: s[i] != '\\' && s[i] != '\'' && !HexEscaped(s[i])
    ensures EscapeAll(s, '\'') == s
  {
    if s != [] {
      EscapePlain(s[1..]);
      assert [s[0]] + s[1..] == s;
    }
  }
}
