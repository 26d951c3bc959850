/** The few pieces of Python string behaviour the formatters and the app rely
    on: `str(int)`, `str.isspace`/`str.strip`, `sep.join(parts)` and the
    bullet lines `- item`. */
module Text {

  // ---------------------------------------------------------------------
  // Decimal rendering of an int, as an f-string `{n}` does.
  // ---------------------------------------------------------------------

  predicate IsDigit(c: char) { '0' <= c <= '9' }

  function DigitChar(d: nat): (c: char)
    requires d < 10
    ensures IsDigit(c) && c as int - '0' as int == d
  {
    "0123456789"[d]
  }

  /** The value of a string of decimal digits (the inverse of NatToDecimal). */
  function DecimalValue(s: string): nat
    requires forall i :: 0 <= i < |s| ==> IsDigit(s[i])
  {
    if s == [] then 0
    else
      assert IsDigit(s[|s| - 1]);
      DecimalValue(s[..|s| - 1]) * 10 + (s[|s| - 1] as int - '0' as int)
  }

  function NatToDecimal(n: nat): (s: string)
    ensures |s| >= 1
    ensures forall i :: 0 <= i < |s| ==> IsDigit(s[i])
    ensures DecimalValue(s) == n
    ensures |s| > 1 ==> s[0] != '0'
  {
    if n < 10 then [DigitChar(n)]
    else
      var s := NatToDecimal(n / 10) + [DigitChar(n % 10)];
      assert s[..|s| - 1] == NatToDecimal(n / 10);
      s
  }

  /** Python's `str(n)`: a leading '-' for negative numbers, no leading zeros. */
  function IntToDecimal(n: int): (s: string)
    ensures |s| >= 1
    ensures n >= 0 ==> s == NatToDecimal(n)
    ensures n < 0 ==> s[0] == '-' && s[1..] == NatToDecimal(-n)
  {
    if n < 0 then "-" + NatToDecimal(-n) else NatToDecimal(n)
  }

  // ---------------------------------------------------------------------
  // Python's str.isspace and str.strip() (no argument).
  // ---------------------------------------------------------------------

  /** The characters for which Python's `str.isspace()` is true. */
  predicate IsSpace(c: char)
  {
    || c == '\t' || c == '\n' || c == '\U{000B}' || c == '\U{000C}' || c == '\r'
    || ('\U{001C}' <= c <= '\U{001F}') || c == ' ' || c == '\U{0085}' || c == '\U{00A0}'
    || c == '\U{1680}' || ('\U{2000}' <= c <= '\U{200A}') || c == '\U{2028}' || c == '\U{2029}'
    || c == '\U{202F}' || c == '\U{205F}' || c == '\U{3000}'
  }

  predicate AllSpace(s: string)
  {
    forall i :: 0 <= i < |s| ==> IsSpace(s[i])
  }

  function TrimStart(s: string): (r: string)
    ensures |r| <= |s| && r == s[|s| - |r|..]
    ensures r != [] ==> !IsSpace(r[0])
    ensures AllSpace(s[..|s| - |r|])
  {
    if s != [] && IsSpace(s[0]) then
      var r := TrimStart(s[1..]);
      assert s[..|s| - |r|] == [s[0]] + s[1..][..|s| - 1 - |r|];
      r
    else s
  }

  function TrimEnd(s: string): (r: string)
    ensures |r| <= |s| && r == s[..|r|]
    ensures r != [] ==> !IsSpace(r[|r| - 1])
    ensures AllSpace(s[|r|..])
  {
    if s != [] && IsSpace(s[|s| - 1]) then
      var r := TrimEnd(s[..|s| - 1]);
      assert s[|r|..] == s[..|s| - 1][|r|..] + [s[|s| - 1]];
      r
    else s
  }

  /** `s.strip()`: drop leading and trailing whitespace. */
  function Strip(s: string): (r: string)
    ensures r != [] ==> !IsSpace(r[0]) && !IsSpace(r[|r| - 1])
    ensures exists i :: 0 <= i <= |s| - |r| && r == s[i..i + |r|]
                        && AllSpace(s[..i]) && AllSpace(s[i + |r|..])
  {
    var t := TrimStart(s);
    var r := TrimEnd(t);
    TrimmedSlice(s, t, r);
    r
  }

  /** A whitespace-free middle found by trimming a suffix's end is a slice
      of the whole text with only whitespace around it. */
  lemma TrimmedSlice(s: string, t: string, r: string)
    requires |t| <= |s| && t == s[|s| - |t|..] && AllSpace(s[..|s| - |t|])
    requires |r| <= |t| && r == t[..|r|] && AllSpace(t[|r|..])
    requires t != [] ==> !IsSpace(t[0])
    ensures r != [] ==> !IsSpace(r[0])
    ensures exists i :: 0 <= i <= |s| - |r| && r == s[i..i + |r|]
                        && AllSpace(s[..i]) && AllSpace(s[i + |r|..])
  {
    var i := |s| - |t|;
    assert r == s[i..i + |r|];
    assert t[|r|..] == s[i + |r|..];
    if r != [] {
      assert r[0] == t[0];
    }
  }

  lemma {:induction false} TrimStartEmpty(s: string)
    ensures TrimStart(s) == [] <==> AllSpace(s)
  {
    if s != [] && IsSpace(s[0]) {
      TrimStartEmpty(s[1..]);
      assert AllSpace(s[1..]) <==> AllSpace(s) by {
        assert forall i :: 0 < i < |s| ==> s[i] == s[1..][i - 1];
      }
    }
  }

  lemma {:induction false} TrimEndEmpty(s: string)
    ensures TrimEnd(s) == [] <==> AllSpace(s)
  {
    if s != [] && IsSpace(s[|s| - 1]) {
      TrimEndEmpty(s[..|s| - 1]);
      assert AllSpace(s[..|s| - 1]) <==> AllSpace(s) by {
        assert forall i :: 0 <= i < |s| - 1 ==> s[i] == s[..|s| - 1][i];
      }
    }
  }

  /** `not s.strip()` holds exactly for strings made only of whitespace
      (the empty string included). */
  lemma StripEmptyIffBlank(s: string)
    ensures Strip(s) == [] <==> AllSpace(s)
  {
    TrimStartEmpty(s);
    var t := TrimStart(s);
    TrimEndEmpty(t);
    if t != [] {
      assert !AllSpace(t) by { assert !IsSpace(t[0]); }
    }
  }

  // ---------------------------------------------------------------------
  // Joining and bullet lines.
  // ---------------------------------------------------------------------

  /** Python's `sep.join(parts)`. */
  function Join(sep: string, parts: seq<string>): string
  {
    if |parts| == 0 then ""
    else if |parts| == 1 then parts[0]
    else Join(sep, parts[..|parts| - 1]) + sep + parts[|parts| - 1]
  }

  /** `f'- {item}'` for each item, in order. */
  function Bullets(items: seq<string>): seq<string>
  {
    seq(|items|, k requires 0 <= k < |items| => "- " + items[k])
  }

  /** `chr(10).join(f'- {x}' for x in items)`: bullets with no final newline. */
  function JoinedBullets(items: seq<string>): string
  {
    Join("\n", Bullets(items))
  }

  function BulletLine(item: string): string
  {
    "- " + item + "\n"
  }

  /** The text that `for x in items: s += f"- {x}\n"` appends. */
  function BulletLines(items: seq<string>): string
  {
    if items == [] then ""
    else BulletLines(items[..|items| - 1]) + BulletLine(items[|items| - 1])
  }

  lemma {:induction false} BulletLinesAppend(a: seq<string>, b: seq<string>)
    ensures BulletLines(a + b) == BulletLines(a) + BulletLines(b)
  {
    if b != [] {
      var ab := a + b;
      assert ab[..|ab| - 1] == a + b[..|b| - 1];
      assert ab[|ab| - 1] == b[|b| - 1];
      BulletLinesAppend(a, b[..|b| - 1]);
    } else {
      assert a + b == a;
    }
  }

  /** The k-th bullet line is item k, preceded by exactly the lines of the
      items before it and followed by the lines of the items after it. */
  lemma {:induction false} BulletLinesAt(items: seq<string>, k: nat)
    requires k < |items|
    ensures BulletLines(items)
         == BulletLines(items[..k]) + BulletLine(items[k]) + BulletLines(items[k + 1..])
  {
    var pre, post := items[..k], items[k + 1..];
    assert items == pre + [items[k]] + post;
    BulletLinesAppend(pre + [items[k]], post);
    BulletLinesSnoc(pre, items[k]);
  }

  /** The newline-joined bullets are the bullet lines without the final
      newline, and an empty list yields an empty body. */
  lemma {:induction false} JoinedBulletsAreLines(items: seq<string>)
    ensures items == [] ==> JoinedBullets(items) == ""
    ensures items != [] ==> JoinedBullets(items) + "\n" == BulletLines(items)
  {
    if |items| == 1 {
      assert items[..0] == [];
    } else if |items| > 1 {
      var init := items[..|items| - 1];
      JoinedBulletsAreLines(init);
      assert Bullets(items)[..|items| - 1] == Bullets(init);
    }
  }

  /** The number of line breaks in a text. */
  function NewlineCount(s: string): nat
  {
    if s == [] then 0
    else NewlineCount(s[..|s| - 1]) + (if s[|s| - 1] == '\n' then 1 else 0)
  }

  lemma {:induction false} NewlineCountAppend(a: string, b: string)
    ensures NewlineCount(a + b) == NewlineCount(a) + NewlineCount(b)
  {
    if b != [] {
      var ab := a + b;
      assert ab[..|ab| - 1] == a + b[..|b| - 1];
      assert ab[|ab| - 1] == b[|b| - 1];
      NewlineCountAppend(a, b[..|b| - 1]);
    } else {
      assert a + b == a;
    }
  }

  lemma {:induction false} NewlineCountNone(s: string)
    requires '\n' !in s
    ensures NewlineCount(s) == 0
  {
    if s != [] {
      assert s[|s| - 1] in s;
      assert forall c :: c in s[..|s| - 1] ==> c in s;
      NewlineCountNone(s[..|s| - 1]);
    }
  }

  /** Items without line breaks give exactly one line per item. */
  lemma {:induction false} BulletLinesCount(items: seq<string>)
    requires forall k :: 0 <= k < |items| ==> '\n' !in items[k]
    ensures NewlineCount(BulletLines(items)) == |items|
  {
    if items != [] {
      var x := items[|items| - 1];
      BulletLinesCount(items[..|items| - 1]);
      NewlineCountNone(x);
      NewlineCountAppend("- ", x);
      NewlineCountAppend("- " + x, "\n");
      NewlineCountAppend(BulletLines(items[..|items| - 1]), BulletLine(x));
    }
  }

  /** `chr(10).join` of the bullets of items without line breaks has one
      line per item: one break fewer than items, none for an empty list. */
  lemma JoinedBulletsLineCount(items: seq<string>)
    requires forall k :: 0 <= k < |items| ==> '\n' !in items[k]
    ensures items == [] ==> JoinedBullets(items) == ""
    ensures items != [] ==> NewlineCount(JoinedBullets(items)) + 1 == |items|
  {
    JoinedBulletsAreLines(items);
    if items != [] {
      BulletLinesCount(items);
      NewlineCountAppend(JoinedBullets(items), "\n");
    }
  }

  // ---------------------------------------------------------------------
  // Occurrence of a substring.
  // ---------------------------------------------------------------------

  ghost predicate Occurs(t: string, s: string)
  {
    exists i :: 0 <= i <= |s| && t <= s[i..]
  }

  lemma PrefixExtend(a: string, s: string, x: string)
    requires a <= s
    ensures a <= s + x
  {
    assert (s + x)[..|a|] == s[..|a|];
  }

  lemma OccursAtEnd(t: string, s: string)
    ensures Occurs(t, s + t)
  {
    assert t <= (s + t)[|s|..];
  }

  lemma OccursExtend(t: string, s: string, x: string)
    requires Occurs(t, s)
    ensures Occurs(t, s + x)
  {
    var i :| 0 <= i <= |s| && t <= s[i..];
    assert t <= (s + x)[i..] by {
      assert forall m :: 0 <= m < |t| ==> t[m] == s[i + m] == (s + x)[i + m];
    }
  }

  lemma OccursPrepend(t: string, x: string, s: string)
    requires Occurs(t, s)
    ensures Occurs(t, x + s)
  {
    var i :| 0 <= i <= |s| && t <= s[i..];
    assert t <= (x + s)[|x| + i..] by {
      assert forall m :: 0 <= m < |t| ==> t[m] == s[i + m] == (x + s)[|x| + i + m];
    }
  }

  /** Each item of a list is rendered as its own bullet line. */
  lemma BulletLineOccurs(items: seq<string>, k: nat)
    requires k < |items|
    ensures Occurs(BulletLine(items[k]), BulletLines(items))
  {
    BulletLinesAt(items, k);
    var pre, post := BulletLines(items[..k]), BulletLines(items[k + 1..]);
    OccursAtEnd(BulletLine(items[k]), pre);
    OccursExtend(BulletLine(items[k]), pre + BulletLine(items[k]), post);
  }

  lemma Assoc(a: string, b: string, c: string)
    ensures a + (b + c) == a + b + c
  {
  }

  lemma {:induction false} BulletLinesSnoc(items: seq<string>, x: string)
    ensures BulletLines(items + [x]) == BulletLines(items) + BulletLine(x)
  {
    assert (items + [x])[..|items|] == items;
  }

  /** One turn of a `text += f"- {item}\n"` loop extends the bullet lines
      of the items done so far by the next item's line. */
  lemma BulletLineStep(start: string, done: seq<string>, item: string, text: string)
    requires text == start + BulletLines(done)
    ensures text + "- " + item + "\n" == start + BulletLines(done + [item])
  {
    BulletLinesSnoc(done, item);
    BulletAppended(text, item);
    Assoc(start, BulletLines(done), BulletLine(item));
  }

  /** Appending `- item` and a newline appends the item's bullet line. */
  lemma BulletAppended(text: string, item: string)
    ensures text + "- " + item + "\n" == text + BulletLine(item)
  {
    Assoc(text, "- " + item, "\n");
    Assoc(text, "- ", item);
  }
}
