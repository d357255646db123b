/** Quoted strings of an ATerm: escaping them, reading them back, and which
    ones survive without escapes. */
module DrvText {
  import opened Wrappers
  import opened Sequences

  /** Something read, and the text behind it. */
  datatype Parsed<T> = Parsed(value: T, rest: string)

  // ---- escaping ----

  /** `s.replace(c, t)` for one character. */
  function Replace(s: string, c: char, t: string): string {
    if |s| == 0 then "" else (if s[0] == c then t else [s[0]]) + Replace(s[1..], c, t)
  }

  /** `_aterm_escape`: five replacements, one after the other. */
  function Escape(s: string): string {
    Replace(Replace(Replace(Replace(Replace(s, '\\', "\\\\"), '\"', "\\\""), '\n', "\\n"), '\r', "\\r"), '\t', "\\t")
  }

  function EscapeChar(c: char): string {
    match c
    case '\\' => "\\\\"
    case '\"' => "\\\""
    case '\n' => "\\n"
    case '\r' => "\\r"
    case '\t' => "\\t"
    case _ => [c]
  }

  lemma {:induction false} ReplaceConcat(a: string, b: string, c: char, t: string)
    ensures Replace(a + b, c, t) == Replace(a, c, t) + Replace(b, c, t)
  {
    if |a| == 0 {
      assert a + b == b;
    } else {
      assert (a + b)[1..] == a[1..] + b;
      ReplaceConcat(a[1..], b, c, t);
      Associate(if a[0] == c then t else [a[0]], Replace(a[1..], c, t), Replace(b, c, t));
    }
  }

  lemma ReplaceOne(x: char, c: char, t: string)
    ensures Replace([x], c, t) == if x == c then t else [x]
  {
    assert [x][1..] == "";
    assert Replace("", c, t) == "";
  }

  lemma ReplaceTwo(x: char, y: char, c: char, t: string)
    requires x != c && y != c
    ensures Replace([x, y], c, t) == [x, y]
  {
    assert [x, y] == [x] + [y];
    ReplaceConcat([x], [y], c, t);
    ReplaceOne(x, c, t);
    ReplaceOne(y, c, t);
  }

  lemma EscapeConcat(a: string, b: string)
    ensures Escape(a + b) == Escape(a) + Escape(b)
  {
    ReplaceConcat(a, b, '\\', "\\\\");
    var a1, b1 := Replace(a, '\\', "\\\\"), Replace(b, '\\', "\\\\");
    ReplaceConcat(a1, b1, '\"', "\\\"");
    var a2, b2 := Replace(a1, '\"', "\\\""), Replace(b1, '\"', "\\\"");
    ReplaceConcat(a2, b2, '\n', "\\n");
    var a3, b3 := Replace(a2, '\n', "\\n"), Replace(b2, '\n', "\\n");
    ReplaceConcat(a3, b3, '\r', "\\r");
    var a4, b4 := Replace(a3, '\r', "\\r"), Replace(b3, '\r', "\\r");
    ReplaceConcat(a4, b4, '\t', "\\t");
  }

  /** The two characters of an escape are not replaced again. */
  lemma EscapeStays(y: char)
    requires y in {'\\', '\"', 'n', 'r', 't'}
    ensures y == '\\' ==> Replace(['\\', y], '\"', "\\\"") == ['\\', y]
    ensures Replace(['\\', y], '\n', "\\n") == ['\\', y]
    ensures Replace(['\\', y], '\r', "\\r") == ['\\', y]
    ensures Replace(['\\', y], '\t', "\\t") == ['\\', y]
  {
    if y == '\\' { ReplaceTwo('\\', y, '\"', "\\\""); }
    ReplaceTwo('\\', y, '\n', "\\n");
    ReplaceTwo('\\', y, '\r', "\\r");
    ReplaceTwo('\\', y, '\t', "\\t");
  }

  lemma EscapeOne(c: char)
    ensures Escape([c]) == EscapeChar(c)
  {
    ReplaceOne(c, '\\', "\\\\");
    ReplaceOne(c, '\"', "\\\"");
    ReplaceOne(c, '\n', "\\n");
    ReplaceOne(c, '\r', "\\r");
    ReplaceOne(c, '\t', "\\t");
    EscapeStays('\\');
    EscapeStays('\"');
    EscapeStays('n');
    EscapeStays('r');
    EscapeStays('t');
  }

  /** The five passes are one substitution. */
  lemma EscapeStep(s: string)
    requires |s| > 0
    ensures Escape(s) == EscapeChar(s[0]) + Escape(s[1..])
  {
    assert s == [s[0]] + s[1..];
    EscapeConcat([s[0]], s[1..]);
    EscapeOne(s[0]);
  }

  // ---- reading ----

  const KNOWN_ESCAPES: set<char> := {'\"', '\\', '/', 'b', 'f', 'n', 'r', 't'}

  /** What a backslash and a character stand for; an unknown escape stays. */
  function Unescape(c: char): string {
    match c
    case '\"' => "\""
    case '\\' => "\\"
    case '/' => "/"
    case 'b' => "\U{8}"
    case 'f' => "\U{c}"
    case 'n' => "\n"
    case 'r' => "\r"
    case 't' => "\t"
    case _ => ['\\', c]
  }

  /** The eight escapes, by the number of the character each stands for; any
      other backslash stands for itself. */
  lemma EscapeTable(c: char)
    ensures var u := Unescape(c);
            if c in KNOWN_ESCAPES then
              && |u| == 1
              && (c in {'\"', '\\', '/'} ==> u[0] == c)
              && (c == 'b' ==> u[0] as int == 8) && (c == 't' ==> u[0] as int == 9) && (c == 'n' ==> u[0] as int == 10)
              && (c == 'f' ==> u[0] as int == 12) && (c == 'r' ==> u[0] as int == 13)
            else u == "\\" + [c]
  {
  }

  /** The string behind an opening quote; `read` is what came before. */
  function ReadBody(s: string, read: string): (r: Option<Parsed<string>>)
    ensures r.Some? ==> |r.value.rest| < |s|
    decreases |s|
  {
    if |s| == 0 then None
    else if s[0] == '\"' then Some(Parsed(read, s[1..]))
    else if s[0] != '\\' then ReadBody(s[1..], read + [s[0]])
    else if |s| == 1 then None
    else ReadBody(s[2..], read + Unescape(s[1]))
  }

  function Expect(s: string, lead: string): (r: Option<string>)
    ensures r.Some? ==> |r.value| == |s| - |lead|
  {
    if |lead| <= |s| && s[..|lead|] == lead then Some(s[|lead|..]) else None
  }

  function ReadString(s: string): (r: Option<Parsed<string>>)
    ensures r.Some? ==> |r.value.rest| < |s|
  {
    var body :- Expect(s, "\"");
    ReadBody(body, "")
  }

  /** A quoted text and what follows it. */
  function Quoted(s: string, rest: string): string {
    "\"" + (s + ("\"" + rest))
  }

  lemma ExpectLead(lead: string, rest: string)
    ensures Expect(lead + rest, lead) == Some(rest)
  {
  }

  lemma QuotedReads(s: string, rest: string)
    ensures ReadString(Quoted(s, rest)) == ReadBody(s + ("\"" + rest), "")
  {
    ExpectLead("\"", s + ("\"" + rest));
  }

  /** Reading undoes escaping, for every text. */
  lemma {:induction false} ReadEscapedBody(s: string, rest: string, read: string)
    ensures ReadBody(Escape(s) + ("\"" + rest), read) == Some(Parsed(read + s, rest))
    decreases |s|
  {
    var tail := "\"" + rest;
    if |s| == 0 {
      assert Escape(s) + tail == tail && tail[0] == '\"' && tail[1..] == rest;
      assert read + s == read;
    } else {
      var c, e, more := s[0], EscapeChar(s[0]), Escape(s[1..]) + tail;
      EscapeStep(s);
      Associate(e, Escape(s[1..]), tail);
      ReadEscapedBody(s[1..], rest, read + [c]);
      assert read + [c] + s[1..] == read + s;
      EscapeRead(c, more, read);
    }
  }

  lemma EscapeRead(c: char, more: string, read: string)
    ensures ReadBody(EscapeChar(c) + more, read) == ReadBody(more, read + [c])
  {
    var t := EscapeChar(c) + more;
    if |EscapeChar(c)| == 1 {
      assert t[0] == c && t[1..] == more;
    } else {
      assert t[0] == '\\' && t[1] == EscapeChar(c)[1] && t[2..] == more;
      assert Unescape(t[1]) == [c];
    }
  }

  lemma ReadEscaped(s: string, rest: string)
    ensures ReadString(Quoted(Escape(s), rest)) == Some(Parsed(s, rest))
  {
    QuotedReads(Escape(s), rest);
    ReadEscapedBody(s, rest, "");
    assert "" + s == s;
  }

  // ---- texts that are written without escapes ----

  /** No quote, and every backslash is followed by a character that is not a
      known escape. */
  predicate PlainField(s: string)
    decreases |s|
  {
    if |s| == 0 then true
    else if s[0] == '\"' then false
    else if s[0] != '\\' then PlainField(s[1..])
    else |s| >= 2 && s[1] !in KNOWN_ESCAPES && PlainField(s[2..])
  }

  lemma {:induction false} UnmarkedIsPlain(s: string)
    requires forall i :: 0 <= i < |s| ==> s[i] != '\"' && s[i] != '\\'
    ensures PlainField(s)
    decreases |s|
  {
    if |s| > 0 { UnmarkedIsPlain(s[1..]); }
  }

  lemma {:induction false} ReadPlainBody(s: string, rest: string, read: string)
    requires PlainField(s)
    ensures ReadBody(s + ("\"" + rest), read) == Some(Parsed(read + s, rest))
    decreases |s|
  {
    var tail := "\"" + rest;
    var t := s + tail;
    if |s| == 0 {
      assert t == tail && tail[0] == '\"' && tail[1..] == rest && read + s == read;
    } else if s[0] != '\\' {
      assert t[0] == s[0] && t[1..] == s[1..] + tail && read + [s[0]] + s[1..] == read + s;
      ReadPlainBody(s[1..], rest, read + [s[0]]);
    } else {
      assert t[0] == s[0] && t[1] == s[1] && t[2..] == s[2..] + tail;
      assert read + ['\\', s[1]] + s[2..] == read + s;
      ReadPlainBody(s[2..], rest, read + ['\\', s[1]]);
    }
  }

  lemma ReadPlain(s: string, rest: string)
    requires PlainField(s)
    ensures ReadString(Quoted(s, rest)) == Some(Parsed(s, rest))
  {
    QuotedReads(s, rest);
    ReadPlainBody(s, rest, "");
    assert "" + s == s;
  }

  /** What was read stays in front. */
  lemma {:induction false} ReadKeepsPrefix(s: string, read: string)
    requires ReadBody(s, read).Some?
    ensures read <= ReadBody(s, read).value.value
    decreases |s|
  {
    if s[0] != '\"' {
      if s[0] != '\\' {
        ReadKeepsPrefix(s[1..], read + [s[0]]);
      } else {
        ReadKeepsPrefix(s[2..], read + Unescape(s[1]));
      }
    }
  }

  function Backslashes(m: nat): (s: string)
    ensures |s| == m && forall i :: 0 <= i < m ==> s[i] == '\\'
  {
    seq(m, _ => '\\')
  }

  lemma MoreBackslashes(m: nat, u: string)
    requires m > 0 && |u| >= 2 && u[0] == '\\' && u[1] == '\\'
    ensures Backslashes(m) + u == "\\" + (Backslashes(m + 1) + u[2..])
  {
    var a, b := Backslashes(m) + u, "\\" + (Backslashes(m + 1) + u[2..]);
    assert forall i :: 0 <= i < |a| ==> a[i] == b[i];
  }

  lemma DifferAt(v: string, read: string, want: string, got: string)
    requires read + got <= v && |got| > 0 && |want| >= |got| && want[|got| - 1] != got[|got| - 1]
    ensures v != read + want
  {
    var k := |read| + |got| - 1;
    assert (read + got)[k] == got[|got| - 1] && v[k] == (read + got)[k];
    assert (read + want)[k] == want[|got| - 1];
  }

  /** A text that has fallen behind by backslashes never catches up: reading `u`
      does not give `u` with backslashes in front. */
  lemma {:induction false} FallsBehind(u: string, m: nat, rest: string, read: string)
    requires m > 0
    ensures ReadBody(u + ("\"" + rest), read).Some? ==>
              ReadBody(u + ("\"" + rest), read).value.value != read + (Backslashes(m) + u)
    decreases |u|
  {
    var tail := "\"" + rest;
    var t, want := u + tail, Backslashes(m) + u;
    assert want[0] == '\\';
    if ReadBody(t, read).Some? {
      var v := ReadBody(t, read).value.value;
      if |u| == 0 || u[0] == '\"' {
        assert t[0] == '\"' && |read + want| > |read|;
      } else if u[0] != '\\' {
        assert t[0] == u[0];
        ReadKeepsPrefix(t[1..], read + [u[0]]);
        DifferAt(v, read, want, [u[0]]);
      } else if |u| == 1 {
        assert t[0] == '\\' && t[1] == '\"';
        ReadKeepsPrefix(t[2..], read + "\"");
        DifferAt(v, read, want, "\"");
      } else {
        assert t[0] == '\\' && t[1] == u[1] && t[2..] == u[2..] + tail;
        ReadKeepsPrefix(t[2..], read + Unescape(u[1]));
        if u[1] == '\\' {
          FallsBehind(u[2..], m + 1, rest, read + "\\");
          MoreBackslashes(m, u);
          Associate(read, "\\", Backslashes(m + 1) + u[2..]);
        } else {
          assert want[1] == '\\';
          DifferAt(v, read, want, Unescape(u[1]));
        }
      }
    }
  }

  lemma {:induction false} ReadChangesOther(s: string, rest: string, read: string)
    requires !PlainField(s)
    ensures ReadBody(s + ("\"" + rest), read).Some? ==> ReadBody(s + ("\"" + rest), read).value.value != read + s
    decreases |s|
  {
    var tail := "\"" + rest;
    var t := s + tail;
    if ReadBody(t, read).Some? {
      var v := ReadBody(t, read).value.value;
      if s[0] == '\"' {
        assert t[0] == '\"';
      } else if s[0] != '\\' {
        assert t[0] == s[0] && t[1..] == s[1..] + tail && read + [s[0]] + s[1..] == read + s;
        ReadChangesOther(s[1..], rest, read + [s[0]]);
      } else if |s| == 1 {
        assert t[0] == '\\' && t[1] == '\"';
        ReadKeepsPrefix(t[2..], read + "\"");
        DifferAt(v, read, s, "\"");
      } else {
        assert t[0] == s[0] && t[1] == s[1] && t[2..] == s[2..] + tail;
        EscapeChangesOther(s, rest, read);
      }
    }
  }

  lemma {:induction false} EscapeChangesOther(s: string, rest: string, read: string)
    requires !PlainField(s) && |s| >= 2 && s[0] == '\\' && ReadBody(s[2..] + ("\"" + rest), read + Unescape(s[1])).Some?
    ensures ReadBody(s[2..] + ("\"" + rest), read + Unescape(s[1])).value.value != read + s
    decreases |s|, 0
  {
    var more := s[2..] + ("\"" + rest);
    var v := ReadBody(more, read + Unescape(s[1])).value.value;
    ReadKeepsPrefix(more, read + Unescape(s[1]));
    if s[1] == '\\' {
      FallsBehind(s[2..], 1, rest, read + "\\");
      assert read + "\\" + (Backslashes(1) + s[2..]) == read + s;
    } else if s[1] in KNOWN_ESCAPES {
      DifferAt(v, read, s, Unescape(s[1]));
    } else {
      assert read + ['\\', s[1]] + s[2..] == read + s;
      ReadChangesOther(s[2..], rest, read + ['\\', s[1]]);
    }
  }

  /** Exactly the plain texts come back when they are written as they are, and
      no other text is even read as itself. */
  lemma PlainIff(s: string, rest: string)
    ensures ReadString(Quoted(s, rest)) == Some(Parsed(s, rest)) <==> PlainField(s)
    ensures ReadString(Quoted(s, rest)).Some? && ReadString(Quoted(s, rest)).value.value == s ==> PlainField(s)
  {
    if PlainField(s) {
      ReadPlain(s, rest);
    } else {
      QuotedReads(s, rest);
      ReadChangesOther(s, rest, "");
      assert "" + s == s;
    }
  }
}
