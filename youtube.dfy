/** Rewriting a YouTube watch or short link into an embeddable player URL (src/lib/youtube.js). */
module Youtube {
  import opened Wrappers
  import opened Records

  /** What `new URL(url)` exposes to the rewriter: the hostname, the pathname with its
      leading "/", and the query's key/value pairs in order, already percent-decoded. */
  datatype ParsedUrl = ParsedUrl(hostname: string, pathname: string, query: seq<(string, string)>)

  const EmbedPrefix: string := "https://www.youtube.com/embed"
  const ShortHost: string := "youtu.be"
  const WatchHost: string := "youtube.com"

  /** `sub` occurs in `s` starting at index `i`. */
  predicate OccursAt(s: string, sub: string, i: nat)
  {
    i + |sub| <= |s| && s[i..i + |sub|] == sub
  }

  /** The reference meaning of substring containment. */
  ghost predicate HasSubstring(s: string, sub: string)
  {
    exists i: nat :: OccursAt(s, sub, i)
  }

  /** `s.includes(sub)`. */
  function Includes(s: string, sub: string): (b: bool)
    decreases |s|
  {
    if |s| < |sub| then false
    else if s[..|sub|] == sub then true
    else |s| > 0 && Includes(s[1..], sub)
  }

  lemma {:induction false} IncludesMeansSubstring(s: string, sub: string)
    ensures Includes(s, sub) <==> HasSubstring(s, sub)
    decreases |s|
  {
    if |s| < |sub| {
      assert forall i: nat :: !OccursAt(s, sub, i);
    } else if s[..|sub|] == sub {
      assert OccursAt(s, sub, 0);
    } else {
      assert |s| > 0;
      IncludesMeansSubstring(s[1..], sub);
      if HasSubstring(s[1..], sub) {
        var i: nat :| OccursAt(s[1..], sub, i);
        assert s[1..][i..i + |sub|] == s[i + 1..i + 1 + |sub|];
        assert OccursAt(s, sub, i + 1);
      }
      if HasSubstring(s, sub) {
        var i: nat :| OccursAt(s, sub, i);
        assert i != 0;
        assert s[1..][i - 1..i - 1 + |sub|] == s[i..i + |sub|];
        assert OccursAt(s[1..], sub, i - 1);
      }
    }
  }

  /** `searchParams.get(key)`: the value of the first pair whose key is `key`, if any. */
  function QueryGet(query: seq<(string, string)>, key: string): (r: Option<string>)
    ensures r.None? <==> forall i :: 0 <= i < |query| ==> query[i].0 != key
    ensures r.Some? ==> exists i :: 0 <= i < |query| && query[i] == (key, r.value) &&
                                    forall j :: 0 <= j < i ==> query[j].0 != key
  {
    if query == [] then None
    else if query[0].0 == key then
      assert query[0] == (key, query[0].1);
      Some(query[0].1)
    else
      var r := QueryGet(query[1..], key);
      assert forall i :: 1 <= i < |query| ==> query[i] == query[1..][i - 1];
      r
  }

  /** `getYoutubeEmbedUrl(url)`, where `parsed` is None when `new URL(url)` throws. */
  function EmbedUrl(parsed: Option<ParsedUrl>): (r: Option<string>)
    ensures parsed.None? ==> r.None?
    ensures r.Some? ==> EmbedPrefix <= r.value
  {
    match parsed
    case None => None
    case Some(u) =>
      if Includes(u.hostname, ShortHost) then Some(EmbedPrefix + u.pathname)
      else if Includes(u.hostname, WatchHost) then
        var id := QueryGet(u.query, "v");
        if Truthy(id) then Some(EmbedPrefix + "/" + id.value) else None
      else None
  }

  /** A short-link host embeds the path verbatim, whatever else the host contains and
      whatever the query says. */
  lemma ShortLinkKeepsPath(u: ParsedUrl)
    requires HasSubstring(u.hostname, ShortHost)
    ensures EmbedUrl(Some(u)) == Some(EmbedPrefix + u.pathname)
  {
    IncludesMeansSubstring(u.hostname, ShortHost);
  }

  /** A watch-page host that is not also a short-link host embeds the first "v" value,
      and yields nothing when "v" is missing or empty. */
  lemma WatchPageUsesFirstV(u: ParsedUrl)
    requires !HasSubstring(u.hostname, ShortHost) && HasSubstring(u.hostname, WatchHost)
    ensures var id := QueryGet(u.query, "v");
            EmbedUrl(Some(u)) == if Truthy(id) then Some(EmbedPrefix + "/" + id.value) else None
  {
    IncludesMeansSubstring(u.hostname, ShortHost);
    IncludesMeansSubstring(u.hostname, WatchHost);
  }

  /** A host containing neither name yields nothing. */
  lemma OtherHostYieldsNothing(u: ParsedUrl)
    requires !HasSubstring(u.hostname, ShortHost) && !HasSubstring(u.hostname, WatchHost)
    ensures EmbedUrl(Some(u)) == None
  {
    IncludesMeansSubstring(u.hostname, ShortHost);
    IncludesMeansSubstring(u.hostname, WatchHost);
  }

  /** Exactly when a parsed URL gets an embed URL. */
  lemma EmbedExactlyWhen(u: ParsedUrl)
    ensures EmbedUrl(Some(u)).Some? <==>
            HasSubstring(u.hostname, ShortHost) ||
            (HasSubstring(u.hostname, WatchHost) && Truthy(QueryGet(u.query, "v")))
  {
    IncludesMeansSubstring(u.hostname, ShortHost);
    IncludesMeansSubstring(u.hostname, WatchHost);
  }

  /** The short-link rule is tried first: a host containing both names takes the path form
      and ignores "v". */
  lemma ShortLinkBeforeWatchPage(u: ParsedUrl)
    requires HasSubstring(u.hostname, ShortHost) && HasSubstring(u.hostname, WatchHost)
    ensures EmbedUrl(Some(u)) == Some(EmbedPrefix + u.pathname)
  {
    ShortLinkKeepsPath(u);
  }

  /** Host matching is containment, not equality: a host equal to neither name but containing
      both is accepted, and takes the path form. */
  lemma ContainmentExample()
    ensures EmbedUrl(Some(ParsedUrl("www.youtu.be.youtube.com", "/abc", [("v", "xyz")])))
            == Some(EmbedPrefix + "/abc")
  {
    var host := "www.youtu.be.youtube.com";
    assert OccursAt(host, ShortHost, 4);
    assert OccursAt(host, WatchHost, 13);
    ShortLinkBeforeWatchPage(ParsedUrl(host, "/abc", [("v", "xyz")]));
  }
}
