/** The password gate of the User webhook, and the base64 coding of section 4 of RFC 4648 that the
    User controller decodes with. */
module Base64 {
  import opened Api

  type Byte = x: int | 0 <= x < 256

  // ---------------------------------------------------------------- the alphabet

  function Symbol(v: Six): (c: char)
    ensures Value(c) == Some(v)
  {
    if v < 26 then 'A' + v as char
    else if v < 52 then 'a' + (v - 26) as char
    else if v < 62 then '0' + (v - 52) as char
    else if v == 62 then '+' else '/'
  }

  function Value(c: char): Option<Six>
  {
    if 'A' <= c <= 'Z' then Some(c as int - 'A' as int)
    else if 'a' <= c <= 'z' then Some(c as int - 'a' as int + 26)
    else if '0' <= c <= '9' then Some(c as int - '0' as int + 52)
    else if c == '+' then Some(62)
    else if c == '/' then Some(63)
    else None
  }

  const UPPER := "ABCDEFGHIJKLMNOPQRSTUVWXYZ"
  const LOWER := "abcdefghijklmnopqrstuvwxyz"
  const DIGITS := "0123456789"

  /** Table 1 of RFC 4648. */
  const ALPHABET := UPPER + LOWER + DIGITS + "+/"

  lemma UpperIsInOrder(i: nat)
    requires i < 26
    ensures UPPER[i] as int == 'A' as int + i
  {
  }

  lemma LowerIsInOrder(i: nat)
    requires i < 26
    ensures LOWER[i] as int == 'a' as int + i
  {
  }

  lemma DigitsAreInOrder(i: nat)
    requires i < 10
    ensures DIGITS[i] as int == '0' as int + i
  {
  }

  /** The symbols stand for their places in the table, and nothing else is a symbol. */
  lemma SymbolsAreThoseOfTheTable(v: Six, c: char)
    ensures |ALPHABET| == 64 && Symbol(v) == ALPHABET[v]
    ensures Value(c).Some? <==> c in ALPHABET
    ensures Value(c).Some? ==> ALPHABET[Value(c).value] == c
  {
    TableIsInOrder(v);
    if Value(c).Some? {
      TableIsInOrder(Value(c).value);
    }
    if c in ALPHABET {
      var i: int :| 0 <= i < 64 && ALPHABET[i] == c;
      TableIsInOrder(i);
    }
  }

  lemma TableIsInOrder(v: Six)
    ensures |ALPHABET| == 64 && Symbol(v) == ALPHABET[v]
  {
    Spliced(UPPER, LOWER, DIGITS, "+/", v);
    if v < 26 {
      UpperIsInOrder(v);
    } else if v < 52 {
      LowerIsInOrder(v - 26);
    } else if v < 62 {
      DigitsAreInOrder(v - 52);
    }
  }

  lemma Spliced<T>(a: seq<T>, b: seq<T>, c: seq<T>, d: seq<T>, i: nat)
    requires |a| == |b| == 26 && |c| == 10 && |d| == 2 && i < 64
    ensures |a + b + c + d| == 64
    ensures (a + b + c + d)[i] == if i < 26 then a[i] else if i < 52 then b[i - 26] else if i < 62 then c[i - 52]
                                  else d[i - 62]
  {
  }

  lemma SymbolOfValue(c: char)
    requires Value(c).Some?
    ensures Symbol(Value(c).value) == c
  {
  }

  // ---------------------------------------------------------------- coding

  // three bytes as four groups of six bits, and back

  type Six = x: int | 0 <= x < 64

  function Six0(b0: Byte): Six { b0 / 4 }
  function Six1(b0: Byte, b1: Byte): Six { b0 % 4 * 16 + b1 / 16 }
  function Six2(b1: Byte, b2: Byte): Six { b1 % 16 * 4 + b2 / 64 }
  function Six3(b2: Byte): Six { b2 % 64 }

  function Byte0(v0: Six, v1: Six): Byte { v0 * 4 + v1 / 16 }
  function Byte1(v1: Six, v2: Six): Byte { v1 % 16 * 16 + v2 / 4 }
  function Byte2(v2: Six, v3: Six): Byte { v2 % 4 * 64 + v3 }

  lemma Regroup(b0: Byte, b1: Byte, b2: Byte)
    ensures Byte0(Six0(b0), Six1(b0, b1)) == b0
    ensures Byte1(Six1(b0, b1), Six2(b1, b2)) == b1
    ensures Byte2(Six2(b1, b2), Six3(b2)) == b2
  {
  }

  lemma Ungroup(v0: Six, v1: Six, v2: Six, v3: Six)
    ensures var b0, b1, b2 := Byte0(v0, v1), Byte1(v1, v2), Byte2(v2, v3);
            && Six0(b0) == v0 && Six1(b0, b1) == v1 && Six2(b1, b2) == v2 && Six3(b2) == v3
            && (Six1(b0, 0) == v1 <==> v1 % 16 == 0)
            && (Six2(b1, 0) == v2 <==> v2 % 4 == 0)
  {
  }

  function Encode(b: seq<Byte>): string {
    if b == [] then ""
    else if |b| == 1 then [Symbol(Six0(b[0])), Symbol(Six1(b[0], 0)), '=', '=']
    else if |b| == 2 then [Symbol(Six0(b[0])), Symbol(Six1(b[0], b[1])), Symbol(Six2(b[1], 0)), '=']
    else
      [Symbol(Six0(b[0])), Symbol(Six1(b[0], b[1])), Symbol(Six2(b[1], b[2])), Symbol(Six3(b[2]))] + Encode(b[3..])
  }

  /** The decoder passes over line ends wherever they stand. */
  function Strip(s: string): string {
    if s == "" then ""
    else if s[0] == '\n' || s[0] == '\r' then Strip(s[1..])
    else [s[0]] + Strip(s[1..])
  }

  /** Bits left over in the last symbol before padding are dropped unseen. */
  function Quads(s: string): Option<seq<Byte>> {
    if s == "" then Some([])
    else if |s| < 4 || Value(s[0]).None? || Value(s[1]).None? then None
    else
      var v0, v1 := Value(s[0]).value, Value(s[1]).value;
      if s[2] == '=' then
        if s[3] == '=' && |s| == 4 then Some([Byte0(v0, v1)]) else None
      else if Value(s[2]).None? then None
      else
        var v2 := Value(s[2]).value;
        if s[3] == '=' then
          if |s| == 4 then Some([Byte0(v0, v1), Byte1(v1, v2)]) else None
        else if Value(s[3]).None? then None
        else
          var rest := Quads(s[4..]);
          if rest.None? then None
          else Some([Byte0(v0, v1), Byte1(v1, v2), Byte2(v2, Value(s[3]).value)] + rest.value)
  }

  function Decode(s: string): Option<seq<Byte>> {
    Quads(Strip(s))
  }

  /** Four symbols stand for three bytes: the same number, written with the digits of the table in base 64 and,
      behind padding, with what is too small for a byte dropped. */
  lemma FourSymbols(i: Six, j: Six, k: Six, l: Six, c0: char, c1: char, c2: char, c3: char, rest: string)
    requires |ALPHABET| == 64
    requires c0 == ALPHABET[i] && c1 == ALPHABET[j] && c2 == ALPHABET[k] && c3 == ALPHABET[l]
    ensures var n := ((i * 64 + j) * 64 + k) * 64 + l;
            Quads([c0, c1, c2, c3] + rest) ==
              if Quads(rest).None? then None
              else Some([n / 65536, n / 256 % 256, n % 256] + Quads(rest).value)
    ensures Quads([c0, c1, c2, '=']) == Some([((i * 64 + j) * 64 + k) / 1024, ((i * 64 + j) * 64 + k) / 4 % 256])
    ensures Quads([c0, c1, '=', '=']) == Some([(i * 64 + j) / 16])
  {
    SymbolsByPlace(i, j, k, l, c0, c1, c2, c3);
    hide Byte0, Byte1, Byte2, Symbol, Quads;
    QuadsOfFour(i, j, k, l, rest);
    QuadsOfPadded(i, j, k);
    AsOneNumber(i, j, k, l);
  }

  lemma SymbolsByPlace(i: Six, j: Six, k: Six, l: Six, c0: char, c1: char, c2: char, c3: char)
    requires |ALPHABET| == 64
    requires c0 == ALPHABET[i] && c1 == ALPHABET[j] && c2 == ALPHABET[k] && c3 == ALPHABET[l]
    ensures c0 == Symbol(i) && c1 == Symbol(j) && c2 == Symbol(k) && c3 == Symbol(l)
  {
    hide Symbol;
    TableIsInOrder(i);
    TableIsInOrder(j);
    TableIsInOrder(k);
    TableIsInOrder(l);
  }

  lemma AsOneNumber(i: Six, j: Six, k: Six, l: Six)
    ensures var n := ((i * 64 + j) * 64 + k) * 64 + l;
            Byte0(i, j) == n / 65536 && Byte1(j, k) == n / 256 % 256 && Byte2(k, l) == n % 256
    ensures var n := (i * 64 + j) * 64 + k;
            Byte0(i, j) == n / 1024 && Byte1(j, k) == n / 4 % 256
    ensures Byte0(i, j) == (i * 64 + j) / 16
  {
    hide Byte0, Byte1, Byte2;
    Numbers(i, j, k, l);
    ThreeDigits(Byte0(i, j), Byte1(j, k), Byte2(k, l));
    TwoDigits(Byte0(i, j), Byte1(j, k), k % 4);
  }

  lemma Numbers(i: Six, j: Six, k: Six, l: Six)
    ensures ((i * 64 + j) * 64 + k) * 64 + l == Byte0(i, j) * 65536 + Byte1(j, k) * 256 + Byte2(k, l)
    ensures (i * 64 + j) * 64 + k == Byte0(i, j) * 1024 + Byte1(j, k) * 4 + k % 4
    ensures i * 64 + j == Byte0(i, j) * 16 + j % 16
  {
    assert j == j / 16 * 16 + j % 16 && k == k / 4 * 4 + k % 4;
  }

  lemma ThreeDigits(x: Byte, y: Byte, z: Byte)
    ensures var n := x * 65536 + y * 256 + z;
            n / 65536 == x && n / 256 == x * 256 + y && n / 256 % 256 == y && n % 256 == z
  {
  }

  lemma TwoDigits(x: Byte, y: Byte, z: nat)
    requires z < 4
    ensures var n := x * 1024 + y * 4 + z;
            n / 1024 == x && n / 4 == x * 256 + y && n / 4 % 256 == y
  {
  }

  /** Line ends make no difference, wherever they stand. */
  lemma {:induction false} LineEndsAreSkipped(s: string, c: char, t: string)
    requires c == '\n' || c == '\r'
    ensures Decode(s + [c] + t) == Decode(s + t)
  {
    StripSkips(s, c, t);
  }

  lemma {:induction false} StripSkips(s: string, c: char, t: string)
    requires c == '\n' || c == '\r'
    ensures Strip(s + [c] + t) == Strip(s + t)
  {
    if s == "" {
      assert s + [c] + t == [c] + t && ([c] + t)[1..] == t && s + t == t;
    } else {
      StripSkips(s[1..], c, t);
      assert (s + [c] + t)[1..] == s[1..] + [c] + t && (s + t)[1..] == s[1..] + t;
    }
  }

  // ---------------------------------------------------------------- the gate

  /** `[A-Za-z0-9+/]*={0,2}`, the whole string. */
  predicate Matches(s: string) {
    if s == "" || s == "=" || s == "==" then true
    else Value(s[0]).Some? && Matches(s[1..])
  }

  /** `validatePasswordFormat` accepts. */
  predicate Admitted(s: string) {
    s != "" && Matches(s) && |s| >= 4
  }

  /** The gate, said without reading from left to right: at least four characters, symbols but for one or two
      signs of padding at the end. */
  lemma {:induction false} MatchesMeans(s: string)
    ensures Matches(s) <==> exists n: nat :: Padded(s, n)
  {
    if s == "" || s == "=" || s == "==" {
      assert Padded(s, |s|);
    } else {
      MatchesMeans(s[1..]);
      SymbolsAreThoseOfTheTable(0, s[0]);
      if Value(s[0]).Some? && Matches(s[1..]) {
        var n: nat :| Padded(s[1..], n);
        assert forall i :: 0 < i < |s| ==> s[i] == s[1..][i - 1];
        assert Padded(s, n);
      }
      if n: nat :| Padded(s, n) {
        assert n < |s|;
        assert s[0] in ALPHABET;
        assert Padded(s[1..], n);
      }
    }
  }

  lemma AdmittedMeans(s: string)
    ensures Admitted(s) <==> |s| >= 4 && exists n: nat :: Padded(s, n)
  {
    MatchesMeans(s);
  }

  predicate Padded(s: string, n: nat) {
    && n <= 2 && n <= |s|
    && (forall i :: 0 <= i < |s| - n ==> s[i] in ALPHABET)
    && (forall i :: |s| - n <= i < |s| ==> s[i] == '=')
  }

  // ---------------------------------------------------------------- what they promise

  /** A symbol in front of a match without line ends makes another. */
  lemma Prepend(c: char, t: string)
    requires Value(c).Some? && Matches(t) && Strip(t) == t
    ensures Matches([c] + t) && Strip([c] + t) == [c] + t
  {
    assert ([c] + t)[1..] == t;
  }

  lemma TwoMore(c0: char, c1: char, t: string)
    requires Value(c0).Some? && Value(c1).Some? && Matches(t) && Strip(t) == t
    ensures Matches([c0, c1] + t) && Strip([c0, c1] + t) == [c0, c1] + t
  {
    hide Matches, Strip, Value;
    Prepend(c1, t);
    Prepend(c0, [c1] + t);
    assert [c0, c1] + t == [c0] + ([c1] + t);
  }

  lemma FourMore(c0: char, c1: char, c2: char, c3: char, t: string)
    requires Value(c0).Some? && Value(c1).Some? && Value(c2).Some? && Value(c3).Some? && Matches(t) && Strip(t) == t
    ensures Matches([c0, c1, c2, c3] + t) && Strip([c0, c1, c2, c3] + t) == [c0, c1, c2, c3] + t
  {
    hide Matches, Strip, Value;
    TwoMore(c2, c3, t);
    TwoMore(c0, c1, [c2, c3] + t);
    assert [c0, c1, c2, c3] + t == [c0, c1] + ([c2, c3] + t);
  }

  lemma PaddingMatches()
    ensures Matches("") && Strip("") == "" && Matches("=") && Strip("=") == "=" && Matches("==") && Strip("==") == "=="
  {
    assert "=="[1..] == "=" && Strip("=") == "=";
  }

  lemma {:induction false} EncodeMatches(b: seq<Byte>)
    ensures Matches(Encode(b)) && Strip(Encode(b)) == Encode(b)
  {
    hide Matches, Strip, Value, Six0, Six1, Six2, Six3;
    PaddingMatches();
    var e := Encode(b);
    if |b| >= 3 {
      EncodeMatches(b[3..]);
      FourMore(e[0], e[1], e[2], e[3], Encode(b[3..]));
    } else if |b| == 2 {
      Prepend(e[2], "=");
      TwoMore(e[0], e[1], [e[2]] + "=");
      assert e == [e[0], e[1]] + ([e[2]] + "=");
    } else if |b| == 1 {
      TwoMore(e[0], e[1], "==");
      assert e == [e[0], e[1]] + "==";
    }
  }

  lemma QuadsOfFour(v0: Six, v1: Six, v2: Six, v3: Six, t: string)
    ensures Quads([Symbol(v0), Symbol(v1), Symbol(v2), Symbol(v3)] + t) ==
              if Quads(t).None? then None
              else Some([Byte0(v0, v1), Byte1(v1, v2), Byte2(v2, v3)] + Quads(t).value)
  {
    assert Value('=').None?;
    hide Byte0, Byte1, Byte2, Symbol, Value;
    var s := [Symbol(v0), Symbol(v1), Symbol(v2), Symbol(v3)] + t;
    assert s[4..] == t;
  }

  lemma QuadsOfPadded(v0: Six, v1: Six, v2: Six)
    ensures Quads([Symbol(v0), Symbol(v1), Symbol(v2), '=']) == Some([Byte0(v0, v1), Byte1(v1, v2)])
    ensures Quads([Symbol(v0), Symbol(v1), '=', '=']) == Some([Byte0(v0, v1)])
  {
    assert Value('=').None?;
    hide Byte0, Byte1, Byte2, Symbol, Value;
  }

  lemma {:induction false} QuadsOfEncode(b: seq<Byte>)
    ensures Quads(Encode(b)) == Some(b)
  {
    hide Six0, Six1, Six2, Six3, Byte0, Byte1, Byte2, Symbol, Value, Quads;
    if |b| >= 3 {
      QuadsOfEncode(b[3..]);
      Regroup(b[0], b[1], b[2]);
      QuadsOfFour(Six0(b[0]), Six1(b[0], b[1]), Six2(b[1], b[2]), Six3(b[2]), Encode(b[3..]));
      assert b == [b[0], b[1], b[2]] + b[3..];
    } else if |b| == 2 {
      Regroup(b[0], b[1], 0);
      QuadsOfPadded(Six0(b[0]), Six1(b[0], b[1]), Six2(b[1], 0));
      assert b == [b[0], b[1]];
    } else if |b| == 1 {
      Regroup(b[0], 0, 0);
      QuadsOfPadded(Six0(b[0]), Six1(b[0], 0), 0);
      assert b == [b[0]];
    } else {
      NoQuads();
    }
  }

  lemma NoQuads()
    ensures Quads("") == Some([])
  {
  }

  /** Every password, once encoded, passes the gate and comes back. */
  lemma EncodedPasswordsPass(b: seq<Byte>)
    requires b != []
    ensures Admitted(Encode(b)) && Decode(Encode(b)) == Some(b)
  {
    QuadsOfEncode(b);
    EncodeMatches(b);
  }

  lemma {:induction false} MatchesHasNoLineEnds(s: string)
    requires Matches(s)
    ensures Strip(s) == s
  {
    if s == "==" {
      assert Strip(s[1..]) == "=";
    } else if s != "" && s != "=" {
      MatchesHasNoLineEnds(s[1..]);
    }
  }

  lemma {:induction false} QuadsOfMatch(s: string)
    requires Matches(s)
    ensures Quads(s).Some? <==> |s| % 4 == 0
  {
    if |s| >= 4 {
      var t := s[1..];
      var u := t[1..];
      assert Matches(t) && Matches(u);
      assert u == s[2..] && u[1..] == s[3..];
      if s[2] == '=' {
        assert u == "==";
      } else {
        assert Matches(s[3..]);
        if s[3] == '=' {
          assert s[3..] == "=" || s[3..] == "==";
          if |s| == 5 {
            assert s[3..] == "==";
          }
        } else {
          assert s[3..][1..] == s[4..];
          QuadsOfMatch(s[4..]);
        }
      }
    }
  }

  /** A password that passes the gate decodes exactly when its length is a multiple of four: the
      gate lets through what the controller then fails on. */
  lemma AdmittedDecodes(s: string)
    requires Admitted(s)
    ensures Decode(s).Some? <==> |s| % 4 == 0
  {
    MatchesHasNoLineEnds(s);
    QuadsOfMatch(s);
  }

  lemma GateIsTooWide()
    ensures Admitted("abcde") && Decode("abcde").None?
  {
    assert Matches("e") && Matches("de") && Matches("cde") && Matches("bcde") by {
      assert "e"[1..] == "" && "de"[1..] == "e" && "cde"[1..] == "de" && "bcde"[1..] == "cde";
    }
    assert "abcde"[1..] == "bcde";
    AdmittedDecodes("abcde");
  }

  /** No bits are set in the last symbol that the padding says to ignore. */
  predicate Canonical(s: string)
    requires |s| >= 4
  {
    var t := s[|s| - 4..];
    && (t[2] == '=' ==> Value(t[1]).Some? && Value(t[1]).value % 16 == 0)
    && (t[2] != '=' && t[3] == '=' ==> Value(t[2]).Some? && Value(t[2]).value % 4 == 0)
  }

  lemma SymbolsDiffer(v: Six, c: char)
    requires Value(c).Some?
    ensures Symbol(v) == c <==> Value(c).value == v
  {
    SymbolOfValue(c);
  }

  /** The last four symbols. */
  lemma EncodeOfLastQuad(s: string)
    requires |s| == 4 && Matches(s) && Quads(s).Some? && s[3] == '='
    ensures Encode(Quads(s).value) == s <==> Canonical(s)
  {
    hide Six0, Six1, Six2, Six3, Byte0, Byte1, Byte2, Symbol;
    assert s[0..] == s;
    var v0, v1 := Value(s[0]).value, Value(s[1]).value;
    SymbolsDiffer(v0, s[0]);
    if s[2] == '=' {
      Ungroup(v0, v1, 0, 0);
      SymbolsDiffer(Six1(Byte0(v0, v1), 0), s[1]);
      assert s == [s[0], s[1], '=', '='];
    } else {
      var v2 := Value(s[2]).value;
      Ungroup(v0, v1, v2, 0);
      SymbolsDiffer(v1, s[1]);
      SymbolsDiffer(Six2(Byte1(v1, v2), 0), s[2]);
      assert s == [s[0], s[1], s[2], '='];
    }
  }

  /** Four symbols without padding, and the rest. */
  lemma EncodeOfQuad(s: string)
    requires |s| >= 4 && s[3] != '=' && Quads(s).Some?
    ensures Quads(s[4..]).Some?
    ensures Encode(Quads(s).value) == s[..4] + Encode(Quads(s[4..]).value)
  {
    hide Six0, Six1, Six2, Six3, Byte0, Byte1, Byte2, Symbol, Quads, Encode, Value;
    QuadsAreSymbols(s);
    var v0, v1, v2, v3 := Value(s[0]).value, Value(s[1]).value, Value(s[2]).value, Value(s[3]).value;
    SymbolOfValue(s[0]);
    SymbolOfValue(s[1]);
    SymbolOfValue(s[2]);
    SymbolOfValue(s[3]);
    assert s == [s[0], s[1], s[2], s[3]] + s[4..] && s[..4] == [s[0], s[1], s[2], s[3]];
    QuadsOfFour(v0, v1, v2, v3, s[4..]);
    EncodeOfThree(Byte0(v0, v1), Byte1(v1, v2), Byte2(v2, v3), Quads(s[4..]).value);
    Ungroup(v0, v1, v2, v3);
  }

  lemma QuadsAreSymbols(s: string)
    requires |s| >= 4 && s[3] != '=' && Quads(s).Some?
    ensures Value(s[0]).Some? && Value(s[1]).Some? && Value(s[2]).Some? && Value(s[3]).Some?
  {
  }

  lemma EncodeOfThree(b0: Byte, b1: Byte, b2: Byte, rest: seq<Byte>)
    ensures Encode([b0, b1, b2] + rest)
              == [Symbol(Six0(b0)), Symbol(Six1(b0, b1)), Symbol(Six2(b1, b2)), Symbol(Six3(b2))] + Encode(rest)
  {
    hide Six0, Six1, Six2, Six3, Symbol;
    assert ([b0, b1, b2] + rest)[3..] == rest;
  }

  lemma QuadsAreLong(s: string)
    requires s != "" && Quads(s).Some?
    ensures |s| >= 4 && (s[3] == '=' ==> |s| == 4)
  {
    assert Value('=').None?;
  }

  lemma {:induction false} EncodeOfQuads(s: string)
    requires s != "" && Matches(s) && Quads(s).Some?
    ensures |s| >= 4
    ensures Encode(Quads(s).value) == s <==> Canonical(s)
  {
    hide Quads, Encode, Matches, Value;
    QuadsAreLong(s);
    if s[3] == '=' {
      EncodeOfLastQuad(s);
    } else {
      EncodeOfQuad(s);
      assert s == s[..4] + s[4..];
      if s[4..] == "" {
        NothingEncoded(s);
      } else {
        MatchesFrom(s);
        EncodeOfQuads(s[4..]);
        assert s[|s| - 4..] == s[4..][|s[4..]| - 4..];
      }
    }
  }

  /** Four symbols without padding leave no bits over. */
  lemma NothingEncoded(s: string)
    requires |s| == 4 && s[3] != '=' && Quads(s).Some?
    ensures Encode(Quads(s[4..]).value) == s[4..] && Canonical(s)
  {
    assert s[0..] == s && s[4..] == "";
  }

  lemma MatchesFrom(s: string)
    requires |s| >= 4 && Matches(s) && s[3] != '='
    ensures Matches(s[4..])
  {
    assert s[1..][1..] == s[2..] && s[2..][1..] == s[3..] && s[3..][1..] == s[4..];
    assert Matches(s[1..]);
    assert Matches(s[2..]);
    assert Matches(s[3..]);
  }

  /** Two admitted strings whose unused bits are clear stand for the same password exactly when they
      are equal. */
  lemma CanonicalPasswordsDiffer(s: string, t: string)
    requires Admitted(s) && Admitted(t) && Decode(s).Some? && Decode(t).Some?
    requires Canonical(s) && Canonical(t)
    ensures Decode(s) == Decode(t) <==> s == t
  {
    MatchesHasNoLineEnds(s);
    MatchesHasNoLineEnds(t);
    EncodeOfQuads(s);
    EncodeOfQuads(t);
  }
}
