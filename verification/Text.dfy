/** C strings in buffers: escaped separators and in-place unescaping (stream_layers.c:515-576). */
module Text {
  import opened Fifo

  const NUL: char := '\0'

  ghost predicate Terminated(buffer: seq<char>, start: nat) {
    exists i :: start <= i < |buffer| && buffer[i] == NUL
  }

  /** The string that starts at `start`: everything before the next NUL. */
  ghost function CString(buffer: seq<char>, start: nat): (r: string)
    requires Terminated(buffer, start)
    ensures start + |r| < |buffer| && r == buffer[start..start + |r|] && buffer[start + |r|] == NUL
    ensures forall i :: 0 <= i < |r| ==> r[i] != NUL
    decreases |buffer| - start
  {
    if buffer[start] == NUL then "" else [buffer[start]] + CString(buffer, start + 1)
  }

  lemma {:induction false} CStringIs(buffer: seq<char>, start: nat, text: string)
    requires start + |text| < |buffer| && buffer[start..start + |text|] == text && buffer[start + |text|] == NUL
    requires forall i :: 0 <= i < |text| ==> text[i] != NUL
    ensures Terminated(buffer, start) && CString(buffer, start) == text
    decreases |text|
  {
    if text != "" {
      assert text[0] == buffer[start];
      CStringIs(buffer, start + 1, text[1..]);
    }
  }

  /** The first `c` that no backslash stands before. */
  function NonEscaped(text: string, c: char): (r: Option<nat>)
    ensures match r
            case Some(i) =>
              && i < |text| && Separates(text, c, i)
              && (forall j :: 0 <= j < i ==> !Separates(text, c, j))
            case None => forall j :: 0 <= j < |text| ==> !Separates(text, c, j)
  {
    NonEscapedFrom(text, c, 0)
  }

  predicate Separates(text: string, c: char, i: nat)
    requires i < |text|
  {
    text[i] == c && (i == 0 || text[i - 1] != '\\')
  }

  function NonEscapedFrom(text: string, c: char, from: nat): (r: Option<nat>)
    requires from <= |text|
    ensures match r
            case Some(i) =>
              && from <= i < |text| && Separates(text, c, i)
              && (forall j :: from <= j < i ==> !Separates(text, c, j))
            case None => forall j :: from <= j < |text| ==> !Separates(text, c, j)
    decreases |text| - from
  {
    if from == |text| then None
    else if Separates(text, c, from) then Some(from)
    else NonEscapedFrom(text, c, from + 1)
  }

  method Strchr(buffer: array<char>, start: nat, c: char) returns (r: Option<nat>)
    requires Terminated(buffer[..], start) && c != NUL
    ensures var text := CString(buffer[..], start);
      match r
      case Some(i) =>
        && start <= i < start + |text| && buffer[i] == c
        && (forall j :: start <= j < i ==> buffer[j] != c)
      case None => forall j :: start <= j < start + |text| ==> buffer[j] != c
  {
    ghost var text := CString(buffer[..], start);
    assert forall k :: 0 <= k < |text| ==> buffer[start + k] == text[k];
    var i := start;
    while buffer[i] != NUL
      invariant start <= i <= start + |text|
      invariant forall j :: start <= j < i ==> buffer[j] != c
      decreases start + |text| - i
    {
      if buffer[i] == c {
        return Some(i);
      }
      i := i + 1;
    }
    return None;
  }

  /** NonEscaped, said of a buffer the string lies in. */
  ghost predicate FirstNonEscaped(buffer: seq<char>, start: nat, end: nat, c: char, r: Option<nat>)
    requires start <= end <= |buffer|
  {
    match r
    case Some(i) =>
      && start <= i < end && buffer[i] == c && (i == start || buffer[i - 1] != '\\')
      && (forall j :: start < j < i && buffer[j] == c ==> buffer[j - 1] == '\\')
      && (start < i ==> buffer[start] != c)
    case None =>
      && (forall j :: start < j < end && buffer[j] == c ==> buffer[j - 1] == '\\')
      && (start < end ==> buffer[start] != c)
  }

  lemma NonEscapedInBuffer(buffer: seq<char>, start: nat, c: char, r: Option<nat>)
    requires Terminated(buffer, start)
    requires FirstNonEscaped(buffer, start, start + |CString(buffer, start)|, c, r)
    ensures var found := NonEscaped(CString(buffer, start), c);
      if found.Some? then r == Some(start + found.value) else r == None
  {
    hide NonEscaped, NonEscapedFrom;
    var text := CString(buffer, start);
    var found := NonEscaped(text, c);
    assert forall k :: 0 <= k < |text| ==> text[k] == buffer[start + k];
    if r.Some? {
      assert Separates(text, c, r.value - start);
    }
    if found.Some? {
      assert Separates(text, c, found.value);
    }
  }

  /** find_non_escaped_comma and find_non_escaped_colon. */
  method FindNonEscaped(buffer: array<char>, start: nat, c: char) returns (r: Option<nat>)
    requires Terminated(buffer[..], start) && c != NUL && c != '\\'
    ensures var found := NonEscaped(CString(buffer[..], start), c);
      if found.Some? then r == Some(start + found.value) else r == None
  {
    hide CString, Terminated, NonEscaped, NonEscapedFrom;
    ghost var end := start + |CString(buffer[..], start)|;
    r := SearchNonEscaped(buffer, start, c);
    NonEscapedInBuffer(buffer[..], start, c, r);
  }

  method SearchNonEscaped(buffer: array<char>, start: nat, c: char) returns (r: Option<nat>)
    requires Terminated(buffer[..], start) && c != NUL && c != '\\'
    ensures FirstNonEscaped(buffer[..], start, start + |CString(buffer[..], start)|, c, r)
  {
    hide CString, Terminated;
    ghost var end := start + |CString(buffer[..], start)|;
    assert buffer[..][end] == NUL;
    if buffer[start] == c {
      return Some(start);
    }
    var str := start;
    while true
      invariant start <= str <= end && buffer[start] != c
      invariant forall j :: start < j < str && buffer[j] == c ==> buffer[j - 1] == '\\'
      invariant str == start || buffer[str - 1] == c
      decreases end - str
    {
      CStringSuffix(buffer[..], start, str);
      var sep := Strchr(buffer, str, c);
      if sep.None? {
        return None;
      }
      if buffer[sep.value - 1] != '\\' {
        return sep;
      }
      str := sep.value + 1;
    }
  }

  lemma CStringSuffix(buffer: seq<char>, start: nat, str: nat)
    requires Terminated(buffer, start) && start <= str <= start + |CString(buffer, start)|
    ensures Terminated(buffer, str)
    ensures CString(buffer, str) == CString(buffer, start)[str - start..]
  {
    hide CString;
    var text := CString(buffer, start);
    assert buffer[str..start + |text|] == text[str - start..];
    CStringIs(buffer, str, text[str - start..]);
  }

  // ---------------------------------------------------------------- escapes

  predicate Special(c: char) {
    c == ',' || c == ':' || c == '(' || c == ')'
  }

  predicate Coded(c: char) {
    c == 'n' || c == 'r' || c == 't'
  }

  /** What a backslash and `c` stand for. */
  function Escaped(c: char): string {
    if c == 'n' then "\n" else if c == 'r' then "\r" else if c == 't' then "\t"
    else if Special(c) then [c] else ['\\', c]
  }

  /** What unescaping makes of each pair: the codes of a line feed, a carriage return and a tab
      become these, a separator loses its backslash, and any other pair stays. */
  lemma PairsUnescaped(rest: string, c: char)
    ensures Unescape("\\n" + rest) == "\n" + Unescape(rest)
    ensures Unescape("\\r" + rest) == "\r" + Unescape(rest)
    ensures Unescape("\\t" + rest) == "\t" + Unescape(rest)
    ensures c in ",:()" ==> Unescape(['\\', c] + rest) == [c] + Unescape(rest)
    ensures c !in "nrt,:()" ==> Unescape(['\\', c] + rest) == ['\\', c] + Unescape(rest)
    ensures c != '\\' ==> Unescape([c] + rest) == [c] + Unescape(rest)
    ensures Unescape("\\") == "\\"
  {
    assert "\\n" == ['\\', 'n'] && "\\r" == ['\\', 'r'] && "\\t" == ['\\', 't'];
    UnescapePair('n', rest);
    UnescapePair('r', rest);
    UnescapePair('t', rest);
    UnescapePair(c, rest);
    assert ([c] + rest)[1..] == rest;
  }

  function Unescape(text: string): (r: string)
    ensures |r| <= |text|
  {
    if text == "" then ""
    else if text[0] != '\\' then [text[0]] + Unescape(text[1..])
    else if |text| == 1 then "\\"
    else Escaped(text[1]) + Unescape(text[2..])
  }

  function Escape(text: string): string {
    if text == "" then ""
    else (if Special(text[0]) then ['\\', text[0]] else [text[0]]) + Escape(text[1..])
  }

  /** No backslash of the text, read in pairs from the left, stands before a character that
      unescaping rewrites. */
  predicate Literal(text: string) {
    if |text| < 2 then true
    else if text[0] != '\\' then Literal(text[1..])
    else !Coded(text[1]) && !Special(text[1]) && Literal(text[2..])
  }

  lemma ShortTexts()
    ensures Unescape(Escape("")) == "" && Unescape(Escape("\\")) == "\\"
  {
    assert Escape("\\") == "\\";
  }

  lemma PlainFirst(text: string)
    requires text != "" && text[0] != '\\'
    ensures Unescape(Escape(text)) == [text[0]] + Unescape(Escape(text[1..]))
  {
    if Special(text[0]) {
      assert Escape(text)[2..] == Escape(text[1..]);
    } else {
      assert Escape(text)[1..] == Escape(text[1..]);
    }
  }

  /** Escaping the separators and unescaping gives a text back exactly when its own backslashes
      are literal ones; a text without backslashes always comes back. */
  lemma {:induction false} EscapeRoundTripIff(text: string)
    ensures Unescape(Escape(text)) == text <==> Literal(text)
  {
    hide Unescape, Escape;
    if text == "" || text == "\\" {
      ShortTexts();
    } else if text[0] != '\\' {
      EscapeRoundTripIff(text[1..]);
      PlainFirst(text);
      assert text == [text[0]] + text[1..];
    } else {
      BackslashPair(text);
      EscapeRoundTripIff(text[2..]);
    }
  }

  lemma UnescapePair(c: char, rest: string)
    ensures Unescape(['\\', c] + rest) == Escaped(c) + Unescape(rest)
  {
    assert (['\\', c] + rest)[2..] == rest;
  }

  lemma EscapePair(c: char, rest: string)
    ensures Escape(['\\', c] + rest) == (if Special(c) then "\\\\" else "\\") + [c] + Escape(rest)
  {
    assert (['\\', c] + rest)[1..] == [c] + rest;
    assert ([c] + rest)[1..] == rest;
  }

  lemma SpecialPair(c: char, rest: string)
    requires Special(c)
    ensures Unescape(Escape(['\\', c] + rest)) != ['\\', c] + rest
  {
    hide Unescape, Escape;
    EscapePair(c, rest);
    assert Escape(['\\', c] + rest) == ['\\', '\\'] + ([c] + Escape(rest));
    UnescapePair('\\', [c] + Escape(rest));
    assert Unescape(Escape(['\\', c] + rest))[1] == '\\';
  }

  lemma OtherPair(c: char, rest: string)
    requires !Special(c)
    ensures Unescape(Escape(['\\', c] + rest)) == Escaped(c) + Unescape(Escape(rest))
  {
    hide Unescape, Escape;
    EscapePair(c, rest);
    assert Escape(['\\', c] + rest) == ['\\', c] + Escape(rest);
    UnescapePair(c, Escape(rest));
  }

  lemma BackslashPair(text: string)
    requires |text| >= 2 && text[0] == '\\'
    ensures var r := Unescape(Escape(text));
      if Coded(text[1]) || Special(text[1]) then r != text
      else r == text[..2] + Unescape(Escape(text[2..]))
  {
    hide Unescape, Escape;
    assert text == ['\\', text[1]] + text[2..];
    if Special(text[1]) {
      SpecialPair(text[1], text[2..]);
    } else {
      OtherPair(text[1], text[2..]);
      assert Coded(text[1]) ==> Unescape(Escape(text))[0] != '\\';
    }
  }

  lemma {:induction false} NoBackslashLiteral(text: string)
    requires '\\' !in text
    ensures Literal(text)
  {
    if |text| >= 2 {
      NoBackslashLiteral(text[1..]);
    }
  }

  lemma PlainStep(out: string, rest: string)
    requires rest != "" && rest[0] != '\\'
    ensures out + Unescape(rest) == out + [rest[0]] + Unescape(rest[1..])
  {
  }

  lemma PairStep(out: string, rest: string)
    requires |rest| >= 2 && rest[0] == '\\'
    ensures out + Unescape(rest) == out + Escaped(rest[1]) + Unescape(rest[2..])
  {
  }

  /** Nothing of `before` changed but what lies in [from, to). */
  ghost predicate Elsewhere(buffer: seq<char>, before: seq<char>, from: nat, to: nat) {
    && |buffer| == |before|
    && forall k {:trigger buffer[k]} :: 0 <= k < |buffer| && !(from <= k < to) ==> buffer[k] == before[k]
  }

  lemma ElsewhereToo(buffer: seq<char>, middle: seq<char>, before: seq<char>, from: nat, to: nat, from': nat, to': nat)
    requires Elsewhere(middle, before, from, to) && Elsewhere(buffer, middle, from', to')
    requires from <= from'
    ensures forall end :: to <= end && to' <= end ==> Elsewhere(buffer, before, from, end)
  {
  }

  lemma ElsewhereNone(buffer: seq<char>, from: nat)
    ensures Elsewhere(buffer, buffer, from, from)
  {
  }

  /** Writes what the pair of a backslash and `plain` stands for. */
  method PutEscaped(buffer: array<char>, start: nat, dst: nat, plain: char) returns (dst': nat)
    requires start <= dst && dst + 2 <= buffer.Length
    modifies buffer
    ensures dst < dst' <= dst + 2
    ensures buffer[start..dst'] == old(buffer[start..dst]) + Escaped(plain)
    ensures Elsewhere(buffer[..], old(buffer[..]), dst, dst + 2)
  {
    var c := plain;
    dst' := dst;
    if c == 'n' {
      c := '\n';
    } else if c == 'r' {
      c := '\r';
    } else if c == 't' {
      c := '\t';
    } else if c != ':' && c != ',' && c != '(' && c != ')' {
      buffer[dst'] := '\\';
      dst' := dst' + 1;
    }
    buffer[dst'] := c;
    dst' := dst' + 1;
  }

  method PutPlain(buffer: array<char>, start: nat, dst: nat, c: char)
    requires start <= dst < buffer.Length
    modifies buffer
    ensures buffer[start..dst + 1] == old(buffer[start..dst]) + [c]
    ensures Elsewhere(buffer[..], old(buffer[..]), dst, dst + 1)
  {
    buffer[dst] := c;
  }

  /** unescape_str_inplace: the write position never passes the read position. */
  method UnescapeInPlace(buffer: array<char>, start: nat)
    requires Terminated(buffer[..], start)
    modifies buffer
    ensures Terminated(buffer[..], start)
    ensures CString(buffer[..], start) == Unescape(old(CString(buffer[..], start)))
    ensures Elsewhere(buffer[..], old(buffer[..]), start, start + |old(CString(buffer[..], start))|)
  {
    hide CString, Terminated, Unescape, Escaped, Elsewhere;
    ghost var text, before := CString(buffer[..], start), buffer[..];
    ghost var end, out, rest := start + |text|, "", text;
    NothingOut(Unescape(text));
    ElsewhereNone(before, start);
    var src, dst := start, start;
    while buffer[src] != NUL
      invariant start <= dst <= src <= end && Elsewhere(buffer[..], before, start, src)
      invariant rest == before[src..end] && forall i :: 0 <= i < |rest| ==> rest[i] != NUL
      invariant buffer[start..dst] == out && out + Unescape(rest) == Unescape(text)
      decreases end - src
    {
      ghost var middle := buffer[..];
      StillReads(middle, before, start, src, end, rest);
      if buffer[src] != '\\' {
        PlainStep(out, rest);
        PutPlain(buffer, start, dst, buffer[src]);
        ElsewhereToo(buffer[..], middle, before, start, src, dst, dst + 1);
        out, rest := out + [rest[0]], rest[1..];
        src, dst := src + 1, dst + 1;
      } else if buffer[src + 1] == NUL {
        TrailingBackslash(out, rest);
        PutPlain(buffer, start, dst, '\\');
        ElsewhereToo(buffer[..], middle, before, start, src, dst, dst + 1);
        FinishUnescape(buffer, before, start, dst + 1, end, text);
        return;
      } else {
        PairStep(out, rest);
        out := out + Escaped(rest[1]);
        var dst' := PutEscaped(buffer, start, dst, buffer[src + 1]);
        ElsewhereToo(buffer[..], middle, before, start, src, dst, dst + 2);
        src, dst, rest := src + 2, dst', rest[2..];
      }
    }
    StillReads(buffer[..], before, start, src, end, rest);
    NothingLeft(out);
    FinishUnescape(buffer, before, start, dst, end, text);
  }

  /** What the unread part of the buffer says about the next characters. */
  lemma StillReads(buffer: seq<char>, before: seq<char>, start: nat, src: nat, end: nat, rest: string)
    requires src <= end < |buffer| && Elsewhere(buffer, before, start, src)
    requires rest == before[src..end] && before[end] == NUL
    ensures if rest == "" then buffer[src] == NUL else rest[0] == buffer[src]
    ensures |rest| == 1 ==> buffer[src + 1] == NUL
    ensures |rest| >= 2 ==> rest[1] == buffer[src + 1]
  {
  }

  lemma NothingOut(result: string)
    ensures "" + result == result
  {
  }

  lemma NothingLeft(out: string)
    ensures out + Unescape("") == out
  {
  }

  lemma TrailingBackslash(out: string, rest: string)
    requires |rest| == 1 && rest[0] == '\\'
    ensures out + Unescape(rest) == out + ['\\']
  {
  }

  /** Ends the unescaped string with a NUL. */
  method FinishUnescape(
      buffer: array<char>, ghost before: seq<char>, start: nat, dst: nat, ghost end: nat, ghost text: string)
    requires forall i :: 0 <= i < |text| ==> text[i] != NUL
    requires start <= dst <= end < buffer.Length && buffer[start..dst] == Unescape(text)
    requires Elsewhere(buffer[..], before, start, end) && before[end] == NUL
    modifies buffer
    ensures Terminated(buffer[..], start) && CString(buffer[..], start) == Unescape(text)
    ensures Elsewhere(buffer[..], before, start, end)
  {
    hide CString, Terminated, Unescape;
    buffer[dst] := NUL;
    UnescapedIs(buffer[..], start, text);
  }

  lemma {:induction false} UnescapeKeepsNul(text: string)
    requires forall i :: 0 <= i < |text| ==> text[i] != NUL
    ensures forall i :: 0 <= i < |Unescape(text)| ==> Unescape(text)[i] != NUL
  {
    if text != "" {
      if text[0] != '\\' {
        UnescapeKeepsNul(text[1..]);
      } else if |text| > 1 {
        UnescapeKeepsNul(text[2..]);
      }
    }
  }

  lemma UnescapedIs(buffer: seq<char>, start: nat, text: string)
    requires forall i :: 0 <= i < |text| ==> text[i] != NUL
    requires start + |Unescape(text)| < |buffer|
    requires buffer[start..start + |Unescape(text)|] == Unescape(text)
    requires buffer[start + |Unescape(text)|] == NUL
    ensures Terminated(buffer, start) && CString(buffer, start) == Unescape(text)
  {
    UnescapeKeepsNul(text);
    CStringIs(buffer, start, Unescape(text));
  }
}
