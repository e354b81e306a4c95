/**
 * The `id=url` pairs given on the command line for downstream endpoints
 * (src/id_url.rs): parsing splits at the first `=`, and the debug rendering
 * puts the two halves back together.
 */
module IdUrl {

  import opened Wrappers

  /**
   * A parsed URI, represented by the text its `Display` produces. URI syntax
   * itself is not modelled: parsing is a parameter `parseUri` of the
   * operations below, which maps a text to `None` when it is not a URI.
   */
  datatype Uri = Uri(text: string)

  datatype IdUrlPair = IdUrlPair(id: string, uri: Uri)

  /** The three ways `from_str` fails: its two messages and the URI parser's error. */
  datatype ParseError = MissingId | MissingUri | InvalidUri

  /** The position of the first `c` in `s`, if any. */
  function FirstIndex(s: string, c: char): (r: Option<nat>)
    ensures r.None? <==> c !in s
    ensures r.Some? ==> r.value < |s| && s[r.value] == c && c !in s[..r.value]
  {
    if s == [] then None
    else if s[0] == c then Some(0)
    else
      match FirstIndex(s[1..], c)
      case None => None
      case Some(i) => Some(i + 1)
  }

  /**
   * `s.splitn(2, c)` collected: always a first piece; a second one exactly
   * when `c` occurs, split at its first occurrence.
   */
  function SplitN2(s: string, c: char): (pieces: seq<string>)
    ensures 1 <= |pieces| <= 2
    ensures |pieces| == 1 <==> c !in s
    ensures |pieces| == 1 ==> pieces[0] == s
    ensures |pieces| == 2 ==> c !in pieces[0] && s == pieces[0] + [c] + pieces[1]
  {
    match FirstIndex(s, c)
    case None => [s]
    case Some(i) =>
      assert s == s[..i] + [c] + s[i + 1..];
      [s[..i], s[i + 1..]]
  }

  /**
   * `IdUrlPair::from_str`: the id is the text before the first `=`, the URI
   * the parse of everything after it.
   */
  function FromStr(s: string, parseUri: string -> Option<Uri>): (r: Result<IdUrlPair, ParseError>)
    ensures r != Err(MissingId)
    ensures r == Err(MissingUri) <==> '=' !in s
    ensures r.Ok? ==>
      var n := |r.value.id|;
      '=' !in r.value.id && n < |s| && s[..n] == r.value.id && s[n] == '='
      && parseUri(s[n + 1..]) == Some(r.value.uri)
    ensures r == Err(InvalidUri) ==> '=' in s
  {
    var pieces := SplitN2(s, '=');
    if |pieces| < 1 then Err(MissingId)
    else
      var id := pieces[0];
      if |pieces| < 2 then Err(MissingUri)
      else
        assert s[..|id|] == id && s[|id| + 1..] == pieces[1] by {
          assert s == id + ['='] + pieces[1];
        }
        match parseUri(pieces[1])
        case None => Err(InvalidUri)
        case Some(uri) => Ok(IdUrlPair(id, uri))
  }

  /**
   * The `Debug` rendering of a pair: the id, one `=`, then the URI's text.
   * When the id has no `=`, the separator is the first `=` of the rendering.
   */
  function Render(p: IdUrlPair): (r: string)
    ensures |r| == |p.id| + 1 + |p.uri.text|
    ensures r[..|p.id|] == p.id && r[|p.id|] == '=' && r[|p.id| + 1..] == p.uri.text
    ensures '=' !in p.id ==> FirstIndex(r, '=') == Some(|p.id|)
  {
    assert '=' !in p.id ==> FirstIndex(p.id + "=" + p.uri.text, '=') == Some(|p.id|) by {
      if '=' !in p.id {
        FirstIndexAfterPrefix(p.id, p.uri.text);
      }
    }
    p.id + "=" + p.uri.text
  }

  /** In `id + "=" + t` with no `=` in `id`, the first `=` is the one after `id`. */
  lemma {:induction false} FirstIndexAfterPrefix(id: string, t: string)
    requires '=' !in id
    ensures FirstIndex(id + "=" + t, '=') == Some(|id|)
  {
    if id != [] {
      assert (id + "=" + t)[1..] == id[1..] + "=" + t;
      FirstIndexAfterPrefix(id[1..], t);
    }
  }

  /**
   * Every input with an `=` is `id + "=" + t` for an `=`-free id; it parses to
   * that id and the parse of `t` (which may itself contain `=`), and fails as
   * a whole when `t` is not a URI.
   */
  lemma SplitAtFirstEquals(id: string, t: string, parseUri: string -> Option<Uri>)
    requires '=' !in id
    ensures FromStr(id + "=" + t, parseUri) ==
      match parseUri(t)
      case Some(u) => Ok(IdUrlPair(id, u))
      case None => Err(InvalidUri)
  {
    var s := id + "=" + t;
    FirstIndexAfterPrefix(id, t);
    assert s[..|id|] == id && s[|id| + 1..] == t;
  }

  /** An empty id is accepted: `"=" + t` parses with id `""`. */
  lemma EmptyIdAccepted(t: string, parseUri: string -> Option<Uri>)
    requires parseUri(t).Some?
    ensures FromStr("=" + t, parseUri) == Ok(IdUrlPair("", parseUri(t).value))
  {
  }

  /**
   * Rendering a parsed pair gives back the input, when the URI text is shown
   * unchanged by the URI type.
   */
  lemma RenderAfterParse(id: string, t: string, parseUri: string -> Option<Uri>)
    requires '=' !in id
    requires parseUri(t) == Some(Uri(t))
    ensures FromStr(id + "=" + t, parseUri).Ok?
    ensures Render(FromStr(id + "=" + t, parseUri).value) == id + "=" + t
  {
    SplitAtFirstEquals(id, t, parseUri);
  }

  /** Parsing the rendering of a pair whose id has no `=` gives the pair back. */
  lemma ParseAfterRender(p: IdUrlPair, parseUri: string -> Option<Uri>)
    requires '=' !in p.id
    requires parseUri(p.uri.text) == Some(p.uri)
    ensures FromStr(Render(p), parseUri) == Ok(p)
  {
    SplitAtFirstEquals(p.id, p.uri.text, parseUri);
  }
}
