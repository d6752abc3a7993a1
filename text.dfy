/**
  String helpers shared by the client model: Python truthiness of optional
  strings, prefix and substring tests, splitting a prompt into words, and the
  decimal rendering of integers (Python's `str(int)`) with its parser.
*/
module Text {
  import opened Wrappers

  /** `if s:` on an optional string argument: both `None` and `""` are false. */
  predicate Present(o: Option<string>)
  {
    o.Some? && o.value != ""
  }

  /** `s.startswith(prefix)`. */
  predicate StartsWith(s: string, prefix: string)
  {
    |prefix| <= |s| && s[..|prefix|] == prefix
  }

  /** `sub in s`. */
  predicate Contains(s: string, sub: string)
    decreases |s|
  {
    StartsWith(s, sub) || (s != [] && Contains(s[1..], sub))
  }

  /** Text placed in front keeps every substring. */
  lemma {:induction false} ContainsAfterPrefix(p: string, s: string, sub: string)
    requires Contains(s, sub)
    ensures Contains(p + s, sub)
    decreases |p|
  {
    if p != [] {
      ContainsAfterPrefix(p[1..], s, sub);
      assert (p + s)[1..] == p[1..] + s;
    } else {
      assert p + s == s;
    }
  }

  /** Concatenation of `parts` with `sep` between neighbours (`sep.join(parts)`). */
  function Join(parts: seq<string>, sep: string): string
  {
    if parts == [] then "" else if |parts| == 1 then parts[0] else parts[0] + sep + Join(parts[1..], sep)
  }

  lemma JoinCons(t: string, ws: seq<string>, sep: string)
    requires ws != []
    ensures Join([t] + ws, sep) == t + sep + Join(ws, sep)
  {
    assert ([t] + ws)[1..] == ws;
  }

  lemma {:induction false} JoinAppend(a: seq<string>, b: seq<string>, sep: string)
    requires a != [] && b != []
    ensures Join(a + b, sep) == Join(a, sep) + sep + Join(b, sep)
    decreases |a|
  {
    if |a| == 1 {
      JoinCons(a[0], b, sep);
      assert a + b == [a[0]] + b;
    } else {
      assert a + b == [a[0]] + (a[1..] + b);
      JoinCons(a[0], a[1..] + b, sep);
      JoinAppend(a[1..], b, sep);
      JoinCons(a[0], a[1..], sep);
      assert a == [a[0]] + a[1..];
    }
  }

  // ----- words -----

  /** A flag token: non-empty and free of spaces. */
  predicate IsToken(t: string)
  {
    t != "" && ' ' !in t
  }

  /** Tokens joined by single spaces. */
  function Unwords(ws: seq<string>): string
  {
    Join(ws, " ")
  }

  /** The words of `s`: maximal space-free runs, in order (how a flag parser reads a prompt). */
  function Words(s: string): seq<string>
  {
    SplitFrom(s, "")
  }

  /** Splits `s` where `cur` is the part of the current word read so far. */
  function SplitFrom(s: string, cur: string): seq<string>
    decreases |s|
  {
    if s == [] then (if cur == "" then [] else [cur])
    else if s[0] == ' ' then (if cur == "" then [] else [cur]) + SplitFrom(s[1..], "")
    else SplitFrom(s[1..], cur + [s[0]])
  }

  lemma {:induction false} SplitFromSpace(a: string, b: string, cur: string)
    ensures SplitFrom(a + " " + b, cur) == SplitFrom(a, cur) + SplitFrom(b, "")
    decreases |a|
  {
    var s := a + " " + b;
    if a == [] {
      assert s[0] == ' ' && s[1..] == b;
    } else {
      assert s[0] == a[0] && s[1..] == a[1..] + " " + b;
      if a[0] == ' ' {
        SplitFromSpace(a[1..], b, "");
      } else {
        SplitFromSpace(a[1..], b, cur + [a[0]]);
      }
    }
  }

  lemma {:induction false} SplitFromToken(t: string, cur: string)
    requires ' ' !in t && cur + t != ""
    ensures SplitFrom(t, cur) == [cur + t]
    decreases |t|
  {
    if t == [] {
      assert cur + t == cur;
    } else {
      assert t[0] != ' ';
      SplitFromToken(t[1..], cur + [t[0]]);
      assert cur + [t[0]] + t[1..] == cur + t;
    }
  }

  /** Joining tokens with spaces and splitting the result again gives the tokens back. */
  lemma {:induction false} WordsOfUnwords(ws: seq<string>)
    requires forall i :: 0 <= i < |ws| ==> IsToken(ws[i])
    ensures Words(Unwords(ws)) == ws
    decreases |ws|
  {
    if ws == [] {
    } else if |ws| == 1 {
      SplitFromToken(ws[0], "");
      assert "" + ws[0] == ws[0];
    } else {
      SplitFromSpace(ws[0], Unwords(ws[1..]), "");
      SplitFromToken(ws[0], "");
      assert "" + ws[0] == ws[0];
      WordsOfUnwords(ws[1..]);
      assert ws == [ws[0]] + ws[1..];
    }
  }

  /** The words of `prefix + " " + Unwords(ws)` are the words of the prefix followed by `ws`. */
  lemma WordsAfterPrefix(prefix: string, ws: seq<string>)
    requires forall i :: 0 <= i < |ws| ==> IsToken(ws[i])
    ensures Words(prefix + " " + Unwords(ws)) == Words(prefix) + ws
  {
    SplitFromSpace(prefix, Unwords(ws), "");
    WordsOfUnwords(ws);
  }

  /** Number of occurrences of `t` in `ws`. */
  function Count(ws: seq<string>, t: string): nat
  {
    if ws == [] then 0 else (if ws[0] == t then 1 else 0) + Count(ws[1..], t)
  }

  lemma {:induction false} CountAppend(a: seq<string>, b: seq<string>, t: string)
    ensures Count(a + b, t) == Count(a, t) + Count(b, t)
    decreases |a|
  {
    if a == [] {
      assert a + b == b;
    } else {
      assert (a + b)[0] == a[0] && (a + b)[1..] == a[1..] + b;
      CountAppend(a[1..], b, t);
    }
  }

  lemma {:induction false} CountAbsent(ws: seq<string>, t: string)
    requires t !in ws
    ensures Count(ws, t) == 0
    decreases |ws|
  {
    if ws != [] {
      assert ws[0] != t;
      assert forall i :: 0 <= i < |ws[1..]| ==> ws[1..][i] == ws[i + 1];
      CountAbsent(ws[1..], t);
    }
  }

  // ----- decimal numbers -----

  predicate IsDigit(c: char)
  {
    '0' <= c <= '9'
  }

  predicate AllDigits(s: string)
  {
    forall i :: 0 <= i < |s| ==> IsDigit(s[i])
  }

  function DigitChar(d: int): (c: char)
    requires 0 <= d < 10
    ensures IsDigit(c)
  {
    ('0' as int + d) as char
  }

  function DigitValue(c: char): int
    requires IsDigit(c)
  {
    c as int - '0' as int
  }

  /** Decimal digits of a natural number, most significant first, no leading zeros. */
  function NatString(n: nat): string
    decreases n
  {
    if n < 10 then [DigitChar(n)] else NatString(n / 10) + [DigitChar(n % 10)]
  }

  /** Python's `str(n)` for an int. */
  function DecimalString(n: int): string
  {
    if n < 0 then "-" + NatString(-n) else NatString(n)
  }

  function ParseNat(s: string): nat
    requires s != "" && AllDigits(s)
    decreases |s|
  {
    if |s| == 1 then DigitValue(s[0])
    else ParseNat(s[..|s| - 1]) * 10 + DigitValue(s[|s| - 1])
  }

  /** Reads an optionally signed run of decimal digits. */
  function ParseDecimal(s: string): Option<int>
  {
    if s != "" && s[0] == '-' then
      (if |s| > 1 && AllDigits(s[1..]) then Some(0 - ParseNat(s[1..]) as int) else None)
    else if s != "" && AllDigits(s) then Some(ParseNat(s))
    else None
  }

  lemma {:induction false} NatStringRoundTrip(n: nat)
    ensures NatString(n) != "" && AllDigits(NatString(n))
    ensures ParseNat(NatString(n)) == n
    decreases n
  {
    if n >= 10 {
      NatStringRoundTrip(n / 10);
      var s := NatString(n);
      assert s[..|s| - 1] == NatString(n / 10);
      assert s[|s| - 1] == DigitChar(n % 10);
    }
  }

  /** The decimal rendering of an integer reads back as that integer. */
  lemma DecimalRoundTrip(n: int)
    ensures ParseDecimal(DecimalString(n)) == Some(n)
  {
    if n < 0 {
      NatStringRoundTrip(-n);
      var s := DecimalString(n);
      assert s[1..] == NatString(-n);
    } else {
      NatStringRoundTrip(n);
    }
  }

  /** A decimal rendering is a token whose first character after an optional sign is a digit. */
  lemma DecimalShape(n: int)
    ensures IsToken(DecimalString(n))
    ensures var s := DecimalString(n); IsDigit(s[0]) || (|s| >= 2 && s[0] == '-' && IsDigit(s[1]))
  {
    if n < 0 {
      NatStringRoundTrip(-n);
      var s := DecimalString(n);
      assert s[1..] == NatString(-n);
      assert forall i :: 0 <= i < |s| ==> s[i] != ' ' by {
        forall i | 0 <= i < |s| ensures s[i] != ' ' {
          if i > 0 { assert s[i] == NatString(-n)[i - 1]; }
        }
      }
    } else {
      NatStringRoundTrip(n);
    }
  }
}
