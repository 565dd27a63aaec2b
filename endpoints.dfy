/**
 * Endpoint templates with one path parameter, `prefix + id + suffix`, as the
 * tools build them with f-strings, and the reading back of the id from a
 * path.  Ids are interpolated as they are: an `int` as its decimal text, a
 * `str` verbatim, with no escaping.
 */
module Endpoints {

  import opened Wrappers
  import Decimal

  function Framed(prefix: string, id: string, suffix: string): string {
    prefix + id + suffix
  }

  /** The text between `prefix` and `suffix`, when `path` starts and ends with them. */
  function Unframe(prefix: string, suffix: string, path: string): (r: Option<string>)
    ensures r.Some? ==> Framed(prefix, r.value, suffix) == path
  {
    if |prefix| + |suffix| <= |path| && path[..|prefix|] == prefix && path[|path| - |suffix|..] == suffix
    then
      var id := path[|prefix|..|path| - |suffix|];
      assert path == path[..|prefix|] + id + path[|path| - |suffix|..];
      Some(id)
    else None
  }

  /** The integer id between `prefix` and `suffix`, when the text there is a decimal integer. */
  function UnframeInt(prefix: string, suffix: string, path: string): Option<int> {
    match Unframe(prefix, suffix, path)
    case None => None
    case Some(text) =>
      if |text| > 0 && (text[0] == '-' || Decimal.IsDigit(text[0])) && forall k :: 0 < k < |text| ==> Decimal.IsDigit(text[k])
      then Some(Decimal.ParseInt(text))
      else None
  }

  /** The id a path was built from is read back from it. */
  lemma UnframeFramed(prefix: string, id: string, suffix: string)
    ensures Unframe(prefix, suffix, Framed(prefix, id, suffix)) == Some(id)
  {
    var path := Framed(prefix, id, suffix);
    assert path[..|prefix|] == prefix;
    assert path[|path| - |suffix|..] == suffix;
    assert path[|prefix|..|path| - |suffix|] == id;
  }

  /** An integer id is read back from its decimal text. */
  lemma UnframeIntFramed(prefix: string, id: int, suffix: string)
    ensures UnframeInt(prefix, suffix, Framed(prefix, Decimal.IntToString(id), suffix)) == Some(id)
  {
    UnframeFramed(prefix, Decimal.IntToString(id), suffix);
    Decimal.IntRoundTrip(id);
  }

  /** Within one template, distinct ids give distinct paths. */
  lemma FramedInjective(prefix: string, a: string, b: string, suffix: string)
    requires Framed(prefix, a, suffix) == Framed(prefix, b, suffix)
    ensures a == b
  {
    UnframeFramed(prefix, a, suffix);
    UnframeFramed(prefix, b, suffix);
  }

  // ---------------------------------------------------------------------------
  // Escaped path segments
  // ---------------------------------------------------------------------------

  /** The characters that end a path segment or begin an escape, query or fragment. */
  predicate Reserved(c: char) {
    c == '/' || c == '%' || c == '?' || c == '#'
  }

  function EscapeChar(c: char): string {
    match c
    case '/' => "%2F"
    case '%' => "%25"
    case '?' => "%3F"
    case '#' => "%23"
    case _ => [c]
  }

  /** Percent-encodes the reserved characters, so that an id stays one path segment. */
  function Escape(id: string): (r: string)
    ensures forall i :: 0 <= i < |r| ==> r[i] != '/' && r[i] != '?' && r[i] != '#'
  {
    if id == [] then [] else EscapeChar(id[0]) + Escape(id[1..])
  }

  /** The inverse of `Escape`; None when an escape is malformed. */
  function Unescape(text: string): Option<string> {
    if text == [] then Some([])
    else if text[0] != '%' then
      match Unescape(text[1..])
      case None => None
      case Some(rest) => Some([text[0]] + rest)
    else if |text| < 3 then None
    else
      var c: Option<char> :=
        match text[1..3]
        case "2F" => Some('/')
        case "25" => Some('%')
        case "3F" => Some('?')
        case "23" => Some('#')
        case _ => None;
      match (c, Unescape(text[3..]))
      case (Some(d), Some(rest)) => Some([d] + rest)
      case _ => None
  }

  /** An escaped id is read back exactly. */
  lemma {:induction false} UnescapeEscape(id: string)
    ensures Unescape(Escape(id)) == Some(id)
  {
    if id != [] {
      UnescapeEscape(id[1..]);
      var head, tail := EscapeChar(id[0]), Escape(id[1..]);
      assert Escape(id) == head + tail;
      if Reserved(id[0]) {
        assert (head + tail)[0] == '%' && (head + tail)[1..3] == head[1..3];
        assert (head + tail)[3..] == tail;
      } else {
        assert head == [id[0]];
        assert (head + tail)[1..] == tail;
      }
      assert id == [id[0]] + id[1..];
    }
  }

  /** Distinct ids escape to distinct segments. */
  lemma EscapeInjective(a: string, b: string)
    requires Escape(a) == Escape(b)
    ensures a == b
  {
    UnescapeEscape(a);
    UnescapeEscape(b);
  }
}
