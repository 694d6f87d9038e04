/**
 * The data-URI recognizer `_isDataUri` of index.js. Its pattern accepts
 * optional whitespace, the scheme `data:`, an optional `type/subtype` of
 * letters with at most one `;name=value` parameter, an optional `;base64`
 * flag, a comma and a data segment drawn from a fixed class, all without
 * regard to letter case. The pattern is given twice: as a grammar (the
 * datatype `Uri`, the conditions `WellFormed` and the spelling `Render`) and
 * as a hand-built recognizer `Parse` over the characters. `Parse` returns
 * exactly the strings the grammar spells, and for each the one parse tree
 * that spells it.
 */
module DataUri {
  import opened Wrappers
  import opened Chars

  /** The scheme literal; matched case-insensitively. */
  const Scheme: string := "data:"

  /** The encoding flag literal after its `;`; matched case-insensitively. */
  const Base64Flag: string := "base64"

  /** `;name=value`, allowed only after a media type. */
  datatype Param = Param(name: string, value: string)

  /** `type/subtype` with its optional parameter. */
  datatype MediaType = MediaType(kind: string, subtype: string, param: Option<Param>)

  /**
   * One accepted string, cut into the pattern's parts: the leading
   * whitespace, the scheme as written, the media type, the `base64` flag as
   * written, and the data segment after the first comma (the pattern's
   * trailing `\s*` is already inside the data class).
   */
  datatype Uri = Uri(lead: string, scheme: string, media: Option<MediaType>, flag: Option<string>, data: string)

  // ----- The grammar

  function ParamText(p: Option<Param>): string {
    match p
    case None => ""
    case Some(q) => ";" + q.name + "=" + q.value
  }

  function MediaText(m: Option<MediaType>): string {
    match m
    case None => ""
    case Some(t) => t.kind + "/" + t.subtype + ParamText(t.param)
  }

  function FlagText(f: Option<string>): string {
    match f
    case None => ""
    case Some(b) => ";" + b
  }

  /** The string a parse tree spells. */
  function Render(u: Uri): string {
    u.lead + u.scheme + MediaText(u.media) + FlagText(u.flag) + "," + u.data
  }

  predicate ParamOk(p: Option<Param>) {
    match p
    case None => true
    case Some(q) => q.name != [] && All(q.name, IsNameChar) && q.value != [] && All(q.value, IsNameChar)
  }

  predicate MediaOk(m: Option<MediaType>) {
    match m
    case None => true
    case Some(t) => t.kind != [] && All(t.kind, IsLetter) && t.subtype != [] && All(t.subtype, IsLetter) && ParamOk(t.param)
  }

  predicate FlagOk(f: Option<string>) {
    f.Some? ==> CaseVariant(f.value, Base64Flag)
  }

  /** The parse trees of the pattern's language. */
  predicate WellFormed(u: Uri) {
    && All(u.lead, IsSpace)
    && CaseVariant(u.scheme, Scheme)
    && MediaOk(u.media)
    && FlagOk(u.flag)
    && All(u.data, IsDataChar)
  }

  // ----- The recognizer

  /** The longest prefix of `s` in class `p`, and what follows it. */
  function Span(s: string, p: char -> bool): (r: (string, string))
    ensures r.0 + r.1 == s
    ensures All(r.0, p)
    ensures r.1 == [] || !p(r.1[0])
  {
    if s != [] && p(s[0]) then
      var tail := Span(s[1..], p);
      assert [s[0]] + tail.0 + tail.1 == [s[0]] + s[1..] == s;
      ([s[0]] + tail.0, tail.1)
    else
      ([], s)
  }

  /** The optional `;name=value` after a subtype; `r` is what follows the subtype. */
  function ParseParam(r: string): (res: (Option<Param>, string))
    ensures ParamOk(res.0) && ParamText(res.0) + res.1 == r
  {
    if r != [] && r[0] == ';' then
      var name := Span(r[1..], IsNameChar);
      if name.0 != [] && name.1 != [] && name.1[0] == '=' then
        var value := Span(name.1[1..], IsNameChar);
        if value.0 != [] then
          ParamSpelling(r, name.0, name.1, value.0, value.1);
          (Some(Param(name.0, value.0)), value.1)
        else (None, r)
      else (None, r)
    else (None, r)
  }

  /** The pieces `ParseParam` consumes spell the parameter it returns. */
  lemma ParamSpelling(r: string, name: string, r1: string, value: string, r2: string)
    requires r != [] && r[0] == ';' && name + r1 == r[1..]
    requires r1 != [] && r1[0] == '=' && value + r2 == r1[1..]
    ensures ParamText(Some(Param(name, value))) + r2 == r
  {
  }

  /** The optional media type after the scheme; `r` is what follows the scheme. */
  function ParseMedia(r: string): (res: (Option<MediaType>, string))
    ensures MediaOk(res.0) && MediaText(res.0) + res.1 == r
  {
    var kind := Span(r, IsLetter);
    if kind.0 != [] && kind.1 != [] && kind.1[0] == '/' then
      var subtype := Span(kind.1[1..], IsLetter);
      if subtype.0 != [] then
        var param := ParseParam(subtype.1);
        MediaSpelling(r, kind.0, kind.1, subtype.0, param.0, param.1);
        (Some(MediaType(kind.0, subtype.0, param.0)), param.1)
      else (None, r)
    else (None, r)
  }

  /** The pieces `ParseMedia` consumes spell the media type it returns. */
  lemma MediaSpelling(r: string, kind: string, r1: string, subtype: string, param: Option<Param>, r3: string)
    requires kind + r1 == r && r1 != [] && r1[0] == '/'
    requires subtype + (ParamText(param) + r3) == r1[1..]
    ensures MediaText(Some(MediaType(kind, subtype, param))) + r3 == r
  {
    var m := MediaType(kind, subtype, param);
    assert r1 == "/" + r1[1..];
    calc {
      MediaText(Some(m)) + r3;
      (kind + "/" + subtype + ParamText(param)) + r3;
      { Regroup5(kind, "/", subtype, ParamText(param), r3); }
      kind + ("/" + (subtype + (ParamText(param) + r3)));
      kind + r1;
    }
  }

  /** The optional `;base64` before the comma. */
  function ParseFlag(r: string): (res: (Option<string>, string))
    ensures FlagOk(res.0) && FlagText(res.0) + res.1 == r
  {
    if |r| >= 7 && r[0] == ';' && CaseVariant(r[1..7], Base64Flag) then
      assert FlagText(Some(r[1..7])) + r[7..] == r;
      (Some(r[1..7]), r[7..])
    else (None, r)
  }

  /** Parses a whole string; `None` when the pattern does not match it. */
  function Parse(s: string): (u: Option<Uri>)
    ensures u.Some? ==> WellFormed(u.value) && Render(u.value) == s
  {
    var lead := Span(s, IsSpace);
    var r1 := lead.1;
    if |r1| >= 5 && CaseVariant(r1[..5], Scheme) then
      var media := ParseMedia(r1[5..]);
      var flag := ParseFlag(media.1);
      var r3 := flag.1;
      if r3 != [] && r3[0] == ',' && All(r3[1..], IsDataChar) then
        var u := Uri(lead.0, r1[..5], media.0, flag.0, r3[1..]);
        UriSpelling(s, u, r1, media.1, r3);
        Some(u)
      else None
    else None
  }

  /** The pieces `Parse` consumes spell the parse tree it returns. */
  lemma UriSpelling(s: string, u: Uri, r1: string, r2: string, r3: string)
    requires u.lead + r1 == s && |r1| >= 5 && u.scheme == r1[..5]
    requires MediaText(u.media) + r2 == r1[5..] && FlagText(u.flag) + r3 == r2
    requires r3 != [] && r3[0] == ',' && u.data == r3[1..]
    ensures Render(u) == s
  {
    assert r3 == "," + r3[1..];
    assert r1 == r1[..5] + r1[5..];
    calc {
      Render(u);
      u.lead + u.scheme + MediaText(u.media) + FlagText(u.flag) + "," + u.data;
      { Regroup6(u.lead, u.scheme, MediaText(u.media), FlagText(u.flag), ",", u.data); }
      u.lead + (u.scheme + (MediaText(u.media) + (FlagText(u.flag) + ("," + u.data))));
    }
  }

  /** Regrouping a concatenation, proved once so that callers stay cheap. */
  lemma Regroup5(a: string, b: string, c: string, d: string, e: string)
    ensures a + b + c + d + e == a + (b + (c + (d + e)))
  {
  }

  lemma Regroup6(a: string, b: string, c: string, d: string, e: string, f: string)
    ensures a + b + c + d + e + f == a + (b + (c + (d + (e + f))))
  {
  }

  /** `_isDataUri`: accepted strings are spelled by a well-formed tree (the converse is `ParseRender`). */
  predicate IsDataUri(s: string): (r: bool)
    ensures r ==> exists u :: WellFormed(u) && Render(u) == s
  {
    Parse(s).Some?
  }

  // ----- The recognizer accepts exactly the grammar

  /** A run of class `p` followed by a character outside `p` is split exactly there. */
  lemma {:induction false} SpanExact(run: string, rest: string, p: char -> bool)
    requires All(run, p) && (rest == [] || !p(rest[0]))
    ensures Span(run + rest, p) == (run, rest)
  {
    if run != [] {
      var s := run + rest;
      assert s[0] == run[0] && p(s[0]);
      assert s[1..] == run[1..] + rest;
      SpanExact(run[1..], rest, p);
      assert Span(s, p) == ([s[0]] + run[1..], rest);
      assert [run[0]] + run[1..] == run;
    } else {
      assert run + rest == rest;
    }
  }

  /** A case variant of `base64` starts with four letters and then the digit `6`. */
  lemma FlagShape(b: string)
    requires CaseVariant(b, Base64Flag)
    ensures |b| == 6 && All(b[..4], IsNameChar) && b[4] == '6'
  {
  }

  /** What may follow a media type: the optional flag, the comma and the data. */
  function Tail(f: Option<string>, data: string): string {
    FlagText(f) + ("," + data)
  }

  /** What follows a media type starts with `;` or `,`, never with a letter. */
  lemma TailStart(f: Option<string>, data: string)
    ensures Tail(f, data) != []
    ensures Tail(f, data)[0] == if f.Some? then ';' else ','
  {
  }

  /** The recognizer finds a parameter exactly where the grammar put one. */
  lemma ParamExact(p: Option<Param>, f: Option<string>, data: string)
    requires ParamOk(p) && FlagOk(f)
    ensures ParseParam(ParamText(p) + Tail(f, data)) == (p, Tail(f, data))
  {
    TailStart(f, data);
    if p.Some? {
      ParamPresent(p.value, Tail(f, data));
    } else {
      assert ParamText(p) + Tail(f, data) == Tail(f, data);
      if f.Some? {
        assert Tail(f, data) == ";" + (f.value + ("," + data));
        NoParamBeforeFlag(f.value, data);
      }
    }
  }

  /** `;base64` is not mistaken for a parameter: its name run `base` meets `6`, not `=`. */
  lemma NoParamBeforeFlag(b: string, data: string)
    requires CaseVariant(b, Base64Flag)
    ensures ParseParam(";" + (b + ("," + data))) == (None, ";" + (b + ("," + data)))
  {
    var r := ";" + (b + ("," + data));
    FlagShape(b);
    assert r[1..] == b[..4] + (b[4..] + ("," + data));
    SpanExact(b[..4], b[4..] + ("," + data), IsNameChar);
  }

  /** A spelled parameter, followed by a character that cannot continue its value, is found. */
  lemma ParamPresent(q: Param, tail: string)
    requires ParamOk(Some(q))
    requires tail != [] && !IsNameChar(tail[0])
    ensures ParseParam(ParamText(Some(q)) + tail) == (Some(q), tail)
  {
    var input := ParamText(Some(q)) + tail;
    var afterName := "=" + (q.value + tail);
    assert input == ";" + (q.name + afterName);
    assert input[1..] == q.name + afterName;
    SpanExact(q.name, afterName, IsNameChar);
    assert afterName[1..] == q.value + tail;
    SpanExact(q.value, tail, IsNameChar);
  }

  /** The recognizer finds a media type exactly where the grammar put one. */
  lemma MediaExact(m: Option<MediaType>, f: Option<string>, data: string)
    requires MediaOk(m) && FlagOk(f)
    ensures ParseMedia(MediaText(m) + Tail(f, data)) == (m, Tail(f, data))
  {
    TailStart(f, data);
    if m.Some? {
      MediaExactPresent(m.value, f, data);
    } else {
      var tail := Tail(f, data);
      assert MediaText(m) + tail == [] + tail;
      SpanExact([], tail, IsLetter);
    }
  }

  lemma MediaExactPresent(t: MediaType, f: Option<string>, data: string)
    requires MediaOk(Some(t)) && FlagOk(f)
    ensures ParseMedia(MediaText(Some(t)) + Tail(f, data)) == (Some(t), Tail(f, data))
  {
    var tail := Tail(f, data);
    TailStart(f, data);
    var after := ParamText(t.param) + tail;
    assert after != [] && !IsLetter(after[0]) by {
      if t.param.Some? { assert after[0] == ';'; } else { assert after == tail; }
    }
    Regroup5(t.kind, "/", t.subtype, ParamText(t.param), tail);
    MediaPresent(t.kind, t.subtype, after);
    ParamExact(t.param, f, data);
  }

  /** A spelled media type is found, and what follows its subtype is handed to `ParseParam`. */
  lemma MediaPresent(kind: string, subtype: string, after: string)
    requires kind != [] && All(kind, IsLetter) && subtype != [] && All(subtype, IsLetter)
    requires after != [] && !IsLetter(after[0])
    ensures ParseMedia(kind + ("/" + (subtype + after)))
         == (Some(MediaType(kind, subtype, ParseParam(after).0)), ParseParam(after).1)
  {
    var afterKind := "/" + (subtype + after);
    SpanExact(kind, afterKind, IsLetter);
    assert afterKind[1..] == subtype + after;
    SpanExact(subtype, after, IsLetter);
  }

  /** The recognizer finds the `base64` flag exactly where the grammar put one. */
  lemma FlagExact(f: Option<string>, data: string)
    requires FlagOk(f)
    ensures ParseFlag(Tail(f, data)) == (f, "," + data)
  {
    match f
    case None =>
      assert Tail(f, data) == "," + data;
    case Some(b) =>
      var input := Tail(f, data);
      assert input == ";" + (b + ("," + data));
      assert input[1..7] == b;
      assert input[7..] == "," + data;
  }

  /** Completeness with uniqueness: every parse tree is recovered from its own spelling. */
  lemma ParseRender(u: Uri)
    requires WellFormed(u)
    ensures Parse(Render(u)) == Some(u)
  {
    var rest := MediaText(u.media) + Tail(u.flag, u.data);
    var s := Render(u);
    Regroup6(u.lead, u.scheme, MediaText(u.media), FlagText(u.flag), ",", u.data);
    assert s == u.lead + (u.scheme + rest);
    NonLetterHasNoVariant(Scheme[0], u.scheme[0]);
    SpanExact(u.lead, u.scheme + rest, IsSpace);
    assert (u.scheme + rest)[..5] == u.scheme;
    assert (u.scheme + rest)[5..] == rest;
    MediaExact(u.media, u.flag, u.data);
    FlagExact(u.flag, u.data);
    assert ("," + u.data)[1..] == u.data;
  }

  /** `_isDataUri` accepts a string exactly when the grammar spells it. */
  lemma AcceptsExactlyTheGrammar(s: string)
    ensures IsDataUri(s) <==> exists u :: WellFormed(u) && Render(u) == s
  {
    if exists u :: WellFormed(u) && Render(u) == s {
      var u :| WellFormed(u) && Render(u) == s;
      ParseRender(u);
    }
  }

  // ----- The `/i` flag

  /** Case variants are split at the same place by a class that ignores case. */
  lemma {:induction false} SpanVariant(s: string, t: string, p: char -> bool)
    requires CaseBlind(p) && CaseVariant(s, t)
    ensures |Span(s, p).0| == |Span(t, p).0|
    ensures CaseVariant(Span(s, p).1, Span(t, p).1)
  {
    if s != [] {
      assert SameUpToCase(s[0], t[0]);
      if p(s[0]) {
        SpanVariant(s[1..], t[1..], p);
      }
    }
  }

  lemma ParamVariant(r: string, t: string)
    requires CaseVariant(r, t)
    ensures ParseParam(r).0.Some? == ParseParam(t).0.Some?
    ensures CaseVariant(ParseParam(r).1, ParseParam(t).1)
  {
    ClassesAreCaseBlind();
    if r != [] {
      NonLetterHasNoVariant(r[0], t[0]);
      if r[0] == ';' {
        SpanVariant(r[1..], t[1..], IsNameChar);
        var n, m := Span(r[1..], IsNameChar), Span(t[1..], IsNameChar);
        if n.1 != [] {
          NonLetterHasNoVariant(n.1[0], m.1[0]);
          if n.0 != [] && n.1[0] == '=' {
            SpanVariant(n.1[1..], m.1[1..], IsNameChar);
          }
        }
      }
    }
  }

  lemma MediaVariant(r: string, t: string)
    requires CaseVariant(r, t)
    ensures ParseMedia(r).0.Some? == ParseMedia(t).0.Some?
    ensures CaseVariant(ParseMedia(r).1, ParseMedia(t).1)
  {
    ClassesAreCaseBlind();
    SpanVariant(r, t, IsLetter);
    var k, l := Span(r, IsLetter), Span(t, IsLetter);
    if k.1 != [] {
      NonLetterHasNoVariant(k.1[0], l.1[0]);
      if k.0 != [] && k.1[0] == '/' {
        SpanVariant(k.1[1..], l.1[1..], IsLetter);
        var st, su := Span(k.1[1..], IsLetter), Span(l.1[1..], IsLetter);
        if st.0 != [] {
          ParamVariant(st.1, su.1);
        }
      }
    }
  }

  lemma FlagVariant(r: string, t: string)
    requires CaseVariant(r, t)
    ensures ParseFlag(r).0.Some? == ParseFlag(t).0.Some?
    ensures CaseVariant(ParseFlag(r).1, ParseFlag(t).1)
  {
    if r != [] {
      NonLetterHasNoVariant(r[0], t[0]);
    }
  }

  /** The comma and the data segment are found in a string exactly when in its case variants. */
  lemma DataVariant(r: string, t: string)
    requires CaseVariant(r, t)
    ensures (r != [] && r[0] == ',' && All(r[1..], IsDataChar)) <==> (t != [] && t[0] == ',' && All(t[1..], IsDataChar))
  {
  }

  /** Changing the case of letters never changes whether `_isDataUri` accepts. */
  lemma CaseInsensitive(s: string, t: string)
    requires CaseVariant(s, t)
    ensures IsDataUri(s) <==> IsDataUri(t)
  {
    ClassesAreCaseBlind();
    SpanVariant(s, t, IsSpace);
    var a, b := Span(s, IsSpace).1, Span(t, IsSpace).1;
    if |a| >= 5 {
      assert CaseVariant(a[..5], Scheme) <==> CaseVariant(b[..5], Scheme);
      MediaVariant(a[5..], b[5..]);
      var ma, mb := ParseMedia(a[5..]).1, ParseMedia(b[5..]).1;
      FlagVariant(ma, mb);
      DataVariant(ParseFlag(ma).1, ParseFlag(mb).1);
    }
  }

  // ----- The accept/reject boundary

  /** The empty string, the default argument of both entry points, is rejected. */
  lemma EmptyRejected()
    ensures !IsDataUri("")
  {
  }

  /** Every accepted string is whitespace, then the scheme in some letter case, then more. */
  lemma SchemeRequired(s: string)
    requires IsDataUri(s)
    ensures exists k :: 0 <= k <= |s| - 5 && All(s[..k], IsSpace) && CaseVariant(s[k..k + 5], Scheme)
  {
    SchemeOfTree(Parse(s).value);
  }

  /** The spelling of a well-formed tree is its leading whitespace, then its scheme, then more. */
  lemma SchemeOfTree(u: Uri)
    requires WellFormed(u)
    ensures var s := Render(u);
      exists k :: 0 <= k <= |s| - 5 && All(s[..k], IsSpace) && CaseVariant(s[k..k + 5], Scheme)
  {
    var s := Render(u);
    var rest := MediaText(u.media) + FlagText(u.flag) + "," + u.data;
    Regroup6(u.lead, u.scheme, MediaText(u.media), FlagText(u.flag), ",", u.data);
    assert s == u.lead + (u.scheme + rest);
    var k := |u.lead|;
    assert s[..k] == u.lead && s[k..k + 5] == u.scheme;
    assert 0 <= k <= |s| - 5 && All(s[..k], IsSpace) && CaseVariant(s[k..k + 5], Scheme);
  }

  /** A string that starts with the scheme itself is accepted by what follows the scheme. */
  lemma SchemeFirst(r: string)
    ensures IsDataUri(Scheme + r) <==>
      var f := ParseFlag(ParseMedia(r).1).1;
      f != [] && f[0] == ',' && All(f[1..], IsDataChar)
  {
    var s := Scheme + r;
    assert s == [] + s;
    SpanExact([], s, IsSpace);
    assert s[..5] == Scheme && s[5..] == r;
  }

  /** After `;name=` no case variant of `;base64` can start. */
  lemma NotFlag(name: string, rest: string)
    requires All(name, IsNameChar)
    ensures ParseFlag(";" + name + "=" + rest) == (None, ";" + name + "=" + rest)
  {
    var r := ";" + name + "=" + rest;
    if |r| >= 7 {
      var j := if |name| >= 4 then 4 else |name|;
      assert r[1 + j] == if |name| > 4 then name[4] else '=';
      assert !SameUpToCase(r[1..7][j], Base64Flag[j]);
    }
  }

  /** A parameter with no media type before it is rejected. */
  lemma ParamNeedsMediaType(name: string, rest: string)
    requires All(name, IsNameChar)
    ensures !IsDataUri(Scheme + (";" + name + "=" + rest))
  {
    var r := ";" + name + "=" + rest;
    SchemeFirst(r);
    assert r == [] + r;
    SpanExact([], r, IsLetter);
    NotFlag(name, rest);
  }

  /** After a subtype, `;name=` and a value with a digit leave neither a flag nor the comma next. */
  lemma ParamWithDigit(name: string, value: string, k: nat)
    requires All(name, IsNameChar) && k < |value| && All(value[..k], IsNameChar) && IsDigit(value[k])
    ensures var after := ParseFlag(ParseParam(";" + name + "=" + value).1).1;
            after != [] && after[0] != ','
  {
    if name != [] && k > 0 {
      ParamStopsAtDigit(name, value, k);
    } else {
      NoParamBeforeDigit(name, value, k);
      NotFlag(name, value);
    }
  }

  /** A value run cut short by a digit is taken as the value, and the digit is left next. */
  lemma ParamStopsAtDigit(name: string, value: string, k: nat)
    requires name != [] && All(name, IsNameChar)
    requires 0 < k < |value| && All(value[..k], IsNameChar) && IsDigit(value[k])
    ensures ParseParam(";" + name + "=" + value) == (Some(Param(name, value[..k])), value[k..])
  {
    assert value == value[..k] + value[k..];
    assert ParamText(Some(Param(name, value[..k]))) + value[k..] == ";" + name + "=" + value;
    ParamPresent(Param(name, value[..k]), value[k..]);
  }

  /** With an empty name, or a digit first in the value, no parameter is found at all. */
  lemma NoParamBeforeDigit(name: string, value: string, k: nat)
    requires All(name, IsNameChar) && k < |value| && All(value[..k], IsNameChar) && IsDigit(value[k])
    requires name == [] || k == 0
    ensures ParseParam(";" + name + "=" + value) == (None, ";" + name + "=" + value)
  {
    var r := ";" + name + "=" + value;
    var afterName := "=" + value;
    assert r[1..] == name + afterName;
    SpanExact(name, afterName, IsNameChar);
    if name != [] {
      assert afterName[1..] == [] + value;
      SpanExact([], value, IsNameChar);
    }
  }

  /**
   * A parameter value holding a digit before any other character outside
   * letters and `-` is rejected, whatever follows: so `charset=utf-8` does
   * not pass.
   */
  lemma DigitInParamValueRejected(kind: string, subtype: string, name: string, value: string, k: nat)
    requires kind != [] && All(kind, IsLetter) && subtype != [] && All(subtype, IsLetter)
    requires All(name, IsNameChar) && k < |value| && All(value[..k], IsNameChar) && IsDigit(value[k])
    ensures !IsDataUri(Scheme + (kind + ("/" + (subtype + (";" + name + "=" + value)))))
  {
    var after := ";" + name + "=" + value;
    SchemeFirst(kind + ("/" + (subtype + after)));
    MediaPresent(kind, subtype, after);
    ParamWithDigit(name, value, k);
  }

  /** A parse tree's spelling is accepted. */
  lemma WellFormedAccepted(u: Uri, s: string)
    requires WellFormed(u) && Render(u) == s
    ensures IsDataUri(s)
  {
    ParseRender(u);
  }

  /** A base64 text payload with a media type is accepted. */
  lemma Base64TextAccepted(s: string)
    requires s == "data:text/plain;base64,SGVsbG8="
    ensures IsDataUri(s)
  {
    var u := Uri("", "data:", Some(MediaType("text", "plain", None)), Some("base64"), "SGVsbG8=");
    Base64TextTreeWellFormed(u);
    Base64TextTreeSpelling(u);
    WellFormedAccepted(u, s);
  }

  lemma Base64TextTreeWellFormed(u: Uri)
    requires u == Uri("", "data:", Some(MediaType("text", "plain", None)), Some("base64"), "SGVsbG8=")
    ensures WellFormed(u)
  {
  }

  lemma Base64TextTreeSpelling(u: Uri)
    requires u == Uri("", "data:", Some(MediaType("text", "plain", None)), Some("base64"), "SGVsbG8=")
    ensures Render(u) == "data:text/plain;base64,SGVsbG8="
  {
  }

  /** The same payload in capitals, after leading whitespace, is accepted too. */
  lemma UpperCaseAccepted(s: string)
    requires s == "  DATA:TEXT/PLAIN;BASE64,SGVSBG8="
    ensures IsDataUri(s)
  {
    var u := Uri("  ", "DATA:", Some(MediaType("TEXT", "PLAIN", None)), Some("BASE64"), "SGVSBG8=");
    UpperCaseTreeWellFormed(u);
    UpperCaseTreeSpelling(u);
    WellFormedAccepted(u, s);
  }

  lemma UpperCaseTreeWellFormed(u: Uri)
    requires u == Uri("  ", "DATA:", Some(MediaType("TEXT", "PLAIN", None)), Some("BASE64"), "SGVSBG8=")
    ensures WellFormed(u)
  {
  }

  lemma UpperCaseTreeSpelling(u: Uri)
    requires u == Uri("  ", "DATA:", Some(MediaType("TEXT", "PLAIN", None)), Some("BASE64"), "SGVSBG8=")
    ensures Render(u) == "  DATA:TEXT/PLAIN;BASE64,SGVSBG8="
  {
  }

  /** A string that is not a data URI is rejected. */
  lemma PlainWordRejected(s: string)
    requires s == "not-a-data-uri"
    ensures !IsDataUri(s)
  {
  }

  /** The common `charset=utf-8` parameter is rejected. */
  lemma CharsetUtf8Rejected(s: string)
    requires s == "data:text/plain;charset=utf-8,Hello"
    ensures !IsDataUri(s)
  {
    CharsetUtf8Pieces(s);
    DigitInParamValueRejected("text", "plain", "charset", "utf-8,Hello", 4);
  }

  lemma CharsetUtf8Pieces(s: string)
    requires s == "data:text/plain;charset=utf-8,Hello"
    ensures s == Scheme + ("text" + ("/" + ("plain" + (";" + "charset" + "=" + "utf-8,Hello"))))
  {
  }
}
