/**
 * The browser cookie jar as the client sees it through `document.cookie`,
 * and the `getCookie` helper that both `src/lib/api.js` and
 * `src/services/TokenService.js` use to read one cookie out of that string.
 */
module Cookies {
  import opened Wrappers
  import opened JsStrings

  datatype Cookie = Cookie(name: string, value: string)

  /** The cookies visible to the page, oldest first. */
  type Jar = seq<Cookie>

  predicate NoChar(s: string, c: char)
  {
    forall i :: 0 <= i < |s| ==> s[i] != c
  }

  /** A cookie name: non-empty, without `;` or `=`. */
  predicate ValidName(name: string)
  {
    name != [] && NoChar(name, ';') && NoChar(name, '=')
  }

  /** Names are well formed and distinct, values hold no `;`. */
  predicate ValidJar(jar: Jar)
  {
    (forall i :: 0 <= i < |jar| ==> ValidName(jar[i].name) && NoChar(jar[i].value, ';'))
    && DistinctNames(jar)
  }

  /** No two cookies in the jar share a name. */
  predicate DistinctNames(jar: Jar)
  {
    jar == [] || (Lookup(jar[1..], jar[0].name) == None && DistinctNames(jar[1..]))
  }

  function Lookup(jar: Jar, name: string): (r: Option<string>)
    ensures r.None? <==> forall i :: 0 <= i < |jar| ==> jar[i].name != name
  {
    if jar == [] then None
    else if jar[0].name == name then Some(jar[0].value)
    else Lookup(jar[1..], name)
  }

  /** `document.cookie`: the pairs `name=value` joined by `"; "`. */
  function Render(jar: Jar): string
  {
    if jar == [] then []
    else if |jar| == 1 then jar[0].name + "=" + jar[0].value
    else jar[0].name + "=" + jar[0].value + "; " + Render(jar[1..])
  }

  /**
   * `getCookie(name)`: splits `"; " + document.cookie` at `"; name="` and,
   * only when that yields exactly two parts, returns the second part up to
   * its first `;`.
   */
  function GetCookie(cookieString: string, name: string): (r: Option<string>)
    ensures r.Some? <==> |Split("; " + cookieString, "; " + name + "=")| == 2
    ensures r.Some? ==> NoChar(r.value, ';')
  {
    var parts := Split("; " + cookieString, "; " + name + "=");
    if |parts| == 2 then
      SplitFirstNoSep(parts[1], ';');
      Some(Split(parts[1], ";")[0])
    else None
  }

  /** The first part of a split at a one-character separator never holds that character. */
  lemma {:induction false} SplitFirstNoSep(s: string, c: char)
    ensures NoChar(Split(s, [c])[0], c)
    decreases |s|
  {
    if |s| >= 1 && s[..1] != [c] {
      SplitFirstNoSep(s[1..], c);
    }
  }

  /** Writing a cookie: the browser keeps the value up to its first `;`,
      replacing a cookie of the same name in place or appending a new one. */
  function Put(jar: Jar, name: string, value: string): (r: Jar)
    requires NoChar(value, ';')
    ensures Lookup(r, name) == Some(value)
    ensures forall other :: other != name ==> Lookup(r, other) == Lookup(jar, other)
    ensures ValidJar(jar) && ValidName(name) ==> ValidJar(r)
  {
    if jar == [] then [Cookie(name, value)]
    else if jar[0].name == name then [Cookie(name, value)] + jar[1..]
    else [jar[0]] + Put(jar[1..], name, value)
  }

  /** Expiring a cookie removes it from the jar. */
  function Remove(jar: Jar, name: string): (r: Jar)
    ensures Lookup(r, name) == None
    ensures forall other :: other != name ==> Lookup(r, other) == Lookup(jar, other)
    ensures ValidJar(jar) ==> ValidJar(r)
  {
    if jar == [] then []
    else if jar[0].name == name then Remove(jar[1..], name)
    else [jar[0]] + Remove(jar[1..], name)
  }

  lemma {:induction false} RemoveIdempotent(jar: Jar, name: string)
    ensures Remove(Remove(jar, name), name) == Remove(jar, name)
  {
    if jar != [] {
      RemoveIdempotent(jar[1..], name);
    }
  }

  /** `"; " + document.cookie`, one `"; name=value"` segment per cookie. */
  function Segments(jar: Jar): string
  {
    if jar == [] then [] else "; " + jar[0].name + "=" + jar[0].value + Segments(jar[1..])
  }

  lemma {:induction false} SegmentsRender(jar: Jar)
    requires jar != []
    ensures "; " + Render(jar) == Segments(jar)
  {
    if |jar| > 1 {
      SegmentsRender(jar[1..]);
    }
  }

  lemma SegmentsStart(jar: Jar)
    ensures Segments(jar) == [] || Segments(jar)[0] == ';'
  {
  }

  /** A segment for a different name does not start with the searched separator. */
  lemma OtherSegmentNoMatch(c: Cookie, rest: string, name: string)
    requires ValidName(c.name) && ValidName(name) && c.name != name
    requires |"; " + c.name + "=" + c.value + rest| >= |"; " + name + "="|
    ensures ("; " + c.name + "=" + c.value + rest)[..|"; " + name + "="|] != "; " + name + "="
  {
    var s := "; " + c.name + "=" + c.value + rest;
    var sep := "; " + name + "=";
    if |c.name| > |name| {
      assert s[2 + |name|] == c.name[|name|] != sep[2 + |name|];
    } else if |c.name| < |name| {
      assert s[2 + |c.name|] == '=' != sep[2 + |c.name|];
    } else {
      assert s[2..2 + |name|] == c.name != sep[2..2 + |name|];
    }
  }

  /** Splitting past a segment of another name extends the first part only. */
  lemma OtherSegmentSplit(c: Cookie, rest: string, name: string)
    requires ValidName(c.name) && ValidName(name) && c.name != name && NoChar(c.value, ';')
    ensures var sep := "; " + name + "="; var seg := "; " + c.name + "=" + c.value;
      Split(seg + rest, sep) == [seg + Split(rest, sep)[0]] + Split(rest, sep)[1..]
  {
    var sep := "; " + name + "=";
    var seg := "; " + c.name + "=" + c.value;
    var tail := " " + c.name + "=" + c.value;
    SegmentTailPlain(c);
    assert seg == [';'] + tail;
    if |seg + rest| >= |sep| {
      OtherSegmentNoMatch(c, rest, name);
    }
    UnmatchedHeadSplit(';', tail, rest, sep);
  }

  /**
   * A string that does not start with the separator, and whose first
   * characters after the head hold no separator start, splits into its
   * head and those characters glued to the first part of the rest.
   */
  lemma UnmatchedHeadSplit(head: char, tail: string, rest: string, sep: string)
    requires sep != [] && sep[0] == ';' && NoChar(tail, ';')
    requires |[head] + tail + rest| >= |sep| ==> ([head] + tail + rest)[..|sep|] != sep
    ensures Split([head] + tail + rest, sep) == [[head] + tail + Split(rest, sep)[0]] + Split(rest, sep)[1..]
  {
    var s := [head] + tail + rest;
    var x := Split(rest, sep);
    assert s != [] && s[0] == head;
    SplitNoMatch(s, sep);
    assert s[1..] == tail + rest;
    SplitPlainPrefix(tail, rest, sep);
    var y := Split(s[1..], sep);
    assert y == [tail + x[0]] + x[1..];
    assert y[0] == tail + x[0] && y[1..] == x[1..];
    ConcatAssoc([head], tail, x[0]);
  }

  lemma ConcatAssoc(a: string, b: string, c: string)
    ensures a + (b + c) == a + b + c
  {
  }

  /** A string that does not start with the separator: its first character joins the first part. */
  lemma SplitNoMatch(s: string, sep: string)
    requires sep != [] && s != [] && (|s| >= |sep| ==> s[..|sep|] != sep)
    ensures Split(s, sep) == [[s[0]] + Split(s[1..], sep)[0]] + Split(s[1..], sep)[1..]
  {
    if |s| < |sep| {
      assert Split(s[1..], sep) == [s[1..]];
      assert [s[0]] + s[1..] == s;
    }
  }

  /** The part of a segment after its leading `;` holds no `;`. */
  lemma SegmentTailPlain(c: Cookie)
    requires NoChar(c.name, ';') && NoChar(c.value, ';')
    ensures NoChar(" " + c.name + "=" + c.value, ';')
  {
    var tail := " " + c.name + "=" + c.value;
    forall i | 0 <= i < |tail| ensures tail[i] != ';' {
      if 1 <= i < 1 + |c.name| {
        assert tail[i] == c.name[i - 1];
      } else if 2 + |c.name| <= i {
        assert tail[i] == c.value[i - 2 - |c.name|];
      }
    }
  }

  lemma {:induction false} SplitWithoutName(jar: Jar, name: string)
    requires ValidJar(jar) && ValidName(name) && Lookup(jar, name) == None
    ensures Split(Segments(jar), "; " + name + "=") == [Segments(jar)]
  {
    if jar != [] {
      assert ValidJar(jar[1..]);
      SplitWithoutName(jar[1..], name);
      OtherSegmentSplit(jar[0], Segments(jar[1..]), name);
    }
  }

  lemma {:induction false} SplitWithName(jar: Jar, name: string, v: string)
    requires ValidJar(jar) && ValidName(name) && Lookup(jar, name) == Some(v)
    ensures var parts := Split(Segments(jar), "; " + name + "=");
      |parts| == 2 && Split(parts[1], ";")[0] == v
  {
    assert ValidJar(jar[1..]);
    if jar[0].name == name {
      SplitAtOwnSegment(jar, name, v);
    } else {
      SplitWithName(jar[1..], name, v);
      OtherSegmentSplit(jar[0], Segments(jar[1..]), name);
    }
  }

  /** The searched cookie comes first: the split yields what precedes it and its own segment on. */
  lemma SplitAtOwnSegment(jar: Jar, name: string, v: string)
    requires ValidJar(jar) && ValidName(name) && jar != [] && jar[0] == Cookie(name, v)
    ensures var parts := Split(Segments(jar), "; " + name + "=");
      |parts| == 2 && Split(parts[1], ";")[0] == v
  {
    var sep := "; " + name + "=";
    assert ValidJar(jar[1..]);
    var rest := Segments(jar[1..]);
    assert Lookup(jar[1..], name) == None;
    SplitWithoutName(jar[1..], name);
    assert Segments(jar) == sep + (v + rest);
    SplitAtSep(v + rest, sep);
    SplitPlainPrefix(v, rest, sep);
    assert Split(Segments(jar), sep) == [[], v + rest];
    SplitPlainPrefix(v, rest, ";");
    SegmentsStart(jar[1..]);
    if rest != [] {
      assert rest == ";" + rest[1..];
      SplitAtSep(rest[1..], ";");
    }
  }

  /** Reading a well-formed name back out of `document.cookie` yields the jar's value. */
  lemma GetCookieReadsJar(jar: Jar, name: string)
    requires ValidJar(jar) && ValidName(name)
    ensures GetCookie(Render(jar), name) == Lookup(jar, name)
  {
    var sep := "; " + name + "=";
    if jar == [] {
      assert |"; " + Render(jar)| < |sep|;
    } else {
      SegmentsRender(jar);
      match Lookup(jar, name)
      case None => SplitWithoutName(jar, name);
      case Some(v) => SplitWithName(jar, name, v);
    }
  }
}
