/**
 * The link rewrite of `Formatting.formatMessageContent`: every markdown link
 * `[text](url)`, as the regular expression `\[([^\]]+)\]\(([^)]+)\)` with the
 * `g` flag finds them, becomes an anchor whose shape depends on the url.
 */
module Links {
  import opened Wrappers
  import opened Text

  datatype LinkKind = AuthLink | CheckoutLink | PlainLink

  const AuthDomain: string := "shopify.com/authentication"
  const CheckoutText: string := "click here to proceed to checkout"

  /** The three-way classification of a link's url. */
  function Classify(url: string): LinkKind
  {
    if Contains(url, AuthDomain) && (Contains(url, "oauth/authorize") || Contains(url, "authentication")) then AuthLink
    else if Contains(url, "/cart") || Contains(url, "checkout") then CheckoutLink
    else PlainLink
  }

  /** The second half of the auth test is implied by the first: a url is an auth link exactly when it names the auth domain. */
  lemma AuthIffDomain(url: string)
    ensures Classify(url) == AuthLink <==> Contains(url, AuthDomain)
  {
    if Contains(url, AuthDomain) {
      assert AuthDomain[12..12 + |"authentication"|] == "authentication";
      assert OccursAt(AuthDomain, "authentication", 12);
      ContainsTrans(url, AuthDomain, "authentication");
    }
  }

  const AuthOpen: string := "<a href=\"#auth\" class=\"mitAi-auth-trigger\">"
  const HrefOpen: string := "<a href=\""
  const HrefRest: string := "\" target=\"_blank\" rel=\"noopener noreferrer\">"
  const AnchorClose: string := "</a>"

  /** The anchor a link of `kind` is replaced by. */
  function AnchorOf(kind: LinkKind, text: string, url: string): string
  {
    match kind
    case AuthLink => AuthOpen + text + AnchorClose
    case CheckoutLink => HrefOpen + url + HrefRest + CheckoutText + AnchorClose
    case PlainLink => HrefOpen + url + HrefRest + text + AnchorClose
  }

  /** The anchor a link is replaced by. */
  function Anchor(text: string, url: string): string
  {
    AnchorOf(Classify(url), text, url)
  }

  /** `a + b + c + d + e` holds `b` and `d`. */
  lemma InSecondAndFourth(a: string, b: string, c: string, d: string, e: string)
    ensures Contains(a + b + c + d + e, b) && Contains(a + b + c + d + e, d)
  {
    var s := a + b + c + d + e;
    assert s[|a|..|a| + |b|] == b;
    assert OccursAt(s, b, |a|);
    assert s[|a + b + c|..|a + b + c| + |d|] == d;
    assert OccursAt(s, d, |a + b + c|);
  }

  /** `a + b + c` holds `b` and `c`. */
  lemma InMiddle(a: string, b: string, c: string)
    ensures Contains(a + b + c, b) && Contains(a + b + c, c)
  {
    assert (a + b + c)[|a|..|a| + |b|] == b;
    assert OccursAt(a + b + c, b, |a|);
    assert OccursAt(a + b + c, c, |a + b|);
  }

  /** A link is a checkout link exactly when its url is not an auth url and mentions the cart or checkout. */
  lemma CheckoutIff(url: string)
    ensures Classify(url) == CheckoutLink <==>
      !Contains(url, AuthDomain) && (Contains(url, "/cart") || Contains(url, "checkout"))
  {
    AuthIffDomain(url);
  }

  /**
   * What each kind of anchor keeps: an auth link keeps its text, a checkout
   * link keeps its url under the fixed text, and any other link keeps both
   * its text and its url.
   */
  lemma AnchorKeeps(kind: LinkKind, text: string, url: string)
    ensures kind == AuthLink ==> Contains(AnchorOf(kind, text, url), text)
    ensures kind == CheckoutLink ==>
      Contains(AnchorOf(kind, text, url), url) && Contains(AnchorOf(kind, text, url), CheckoutText)
    ensures kind == PlainLink ==> Contains(AnchorOf(kind, text, url), url) && Contains(AnchorOf(kind, text, url), text)
  {
    if kind == AuthLink {
      InMiddle(AuthOpen, text, AnchorClose);
    } else if kind == CheckoutLink {
      InSecondAndFourth(HrefOpen, url, HrefRest, CheckoutText, AnchorClose);
    } else {
      InSecondAndFourth(HrefOpen, url, HrefRest, text, AnchorClose);
    }
  }

  /** The index of the first `c` in `s`, or `|s|` when there is none. */
  function IndexOfChar(s: string, c: char): (k: nat)
    ensures k <= |s|
    ensures k < |s| ==> s[k] == c
    ensures forall j :: 0 <= j < k ==> s[j] != c
    decreases |s|
  {
    if |s| == 0 || s[0] == c then 0 else 1 + IndexOfChar(s[1..], c)
  }

  /** A piece of message text: a character left as it is, or a link the rewrite replaces. */
  datatype Token = Char(c: char) | Link(text: string, url: string)

  datatype LinkMatch = LinkMatch(text: string, url: string, len: nat)

  /** The markdown source of a link. */
  function LinkSource(text: string, url: string): string
  {
    "[" + text + "](" + url + ")"
  }

  predicate WellFormed(t: Token)
  {
    t.Link? ==> t.text != "" && ']' !in t.text && t.url != "" && ')' !in t.url
  }

  /**
   * The match of the link pattern at the start of `s`, if any. The text runs
   * to the first `]`, the url to the first `)`; both must be non-empty.
   */
  function LinkAt(s: string): (m: Option<LinkMatch>)
    ensures m.Some? ==> 0 < m.value.len <= |s| && s[..m.value.len] == LinkSource(m.value.text, m.value.url)
    ensures m.Some? ==> WellFormed(Link(m.value.text, m.value.url))
  {
    if |s| == 0 || s[0] != '[' then None
    else
      var j := 1 + IndexOfChar(s[1..], ']');
      if j == 1 || j + 1 >= |s| || s[j + 1] != '(' then None
      else
        var k := j + 2 + IndexOfChar(s[j + 2..], ')');
        if k == j + 2 || k >= |s| then None
        else
          LinkSourceAt(s, j, k);
          Some(LinkMatch(s[1..j], s[j + 2..k], k + 1))
  }

  /** The characters from an opening `[` to a closing `)` spell out the link's source. */
  lemma LinkSourceAt(s: string, j: nat, k: nat)
    requires 1 < j && j + 2 < k < |s|
    requires s[0] == '[' && s[j] == ']' && s[j + 1] == '(' && s[k] == ')'
    requires ']' !in s[1..][..j - 1]
    requires ')' !in s[j + 2..][..k - j - 2]
    ensures s[..k + 1] == LinkSource(s[1..j], s[j + 2..k])
    ensures WellFormed(Link(s[1..j], s[j + 2..k]))
  {
    var text, url := s[1..j], s[j + 2..k];
    var src := LinkSource(text, url);
    assert |src| == k + 1;
    forall i | 0 <= i <= k ensures src[i] == s[i] {
      if i == 0 {
      } else if i < j {
        assert src[i] == text[i - 1];
      } else if i == j || i == j + 1 {
      } else if i < k {
        assert src[i] == url[i - j - 2];
      }
    }
    assert ']' !in text by {
      forall i | 0 <= i < |text| ensures text[i] != ']' {
        assert text[i] == s[1..][..j - 1][i];
      }
    }
    assert ')' !in url by {
      forall i | 0 <= i < |url| ensures url[i] != ')' {
        assert url[i] == s[j + 2..][..k - j - 2][i];
      }
    }
  }

  function TokenSource(t: Token): string
  {
    match t
    case Char(c) => [c]
    case Link(text, url) => LinkSource(text, url)
  }

  /** The token at the start of a non-empty text, and how many characters it spans. */
  function Next(s: string): (r: (Token, nat))
    requires |s| > 0
    ensures 0 < r.1 <= |s| && s[..r.1] == TokenSource(r.0)
    ensures WellFormed(r.0)
  {
    match LinkAt(s)
    case Some(m) => (Link(m.text, m.url), m.len)
    case None => (Char(s[0]), 1)
  }

  /** The text cut into characters and links, scanning left to right as the global regular expression does. */
  function Tokens(s: string): seq<Token>
    decreases |s|
  {
    if |s| == 0 then [] else [Next(s).0] + Tokens(s[Next(s).1..])
  }

  /** Every link the scan finds has a non-empty text without `]` and a non-empty url without `)`. */
  lemma {:induction false} TokensWellFormed(s: string)
    ensures forall k :: 0 <= k < |Tokens(s)| ==> WellFormed(Tokens(s)[k])
    decreases |s|
  {
    if |s| > 0 {
      var rest := s[Next(s).1..];
      TokensWellFormed(rest);
      var ts := Tokens(s);
      assert ts == [Next(s).0] + Tokens(rest);
      forall k | 1 <= k < |ts| ensures WellFormed(ts[k]) {
        assert ts[k] == Tokens(rest)[k - 1];
      }
    }
  }

  function Source(ts: seq<Token>): string
  {
    if |ts| == 0 then "" else TokenSource(ts[0]) + Source(ts[1..])
  }

  /** Tokenising loses nothing: the tokens spell out the original text. */
  lemma {:induction false} TokensRoundTrip(s: string)
    ensures Source(Tokens(s)) == s
    decreases |s|
  {
    if |s| > 0 {
      var t, n := Next(s).0, Next(s).1;
      var rest := s[n..];
      calc {
        Source(Tokens(s));
        { assert Tokens(s) == [t] + Tokens(rest); SourceCons(t, Tokens(rest)); }
        TokenSource(t) + Source(Tokens(rest));
        { TokensRoundTrip(rest); }
        s[..n] + rest;
        s;
      }
    }
  }

  lemma SourceCons(t: Token, ts: seq<Token>)
    ensures Source([t] + ts) == TokenSource(t) + Source(ts)
  {
    assert ([t] + ts)[0] == t;
    assert ([t] + ts)[1..] == ts;
  }

  /** What one token becomes: a character stays, a link becomes its anchor. */
  function RenderToken(t: Token): string
  {
    match t
    case Char(c) => [c]
    case Link(text, url) => Anchor(text, url)
  }

  function Render(ts: seq<Token>): string
  {
    if |ts| == 0 then "" else RenderToken(ts[0]) + Render(ts[1..])
  }

  predicate IsAuth(t: Token)
  {
    t.Link? && Classify(t.url) == AuthLink
  }

  /** The url of the last auth link, which the rewrite leaves in `window.thinkAIAuthUrl`. */
  function LastAuthUrl(ts: seq<Token>): Option<string>
    decreases |ts|
  {
    if |ts| == 0 then None
    else if IsAuth(Last(ts)) then Some(Last(ts).url)
    else LastAuthUrl(AllButLast(ts))
  }

  /** Nothing is remembered exactly when there is no auth link; otherwise it is the url of the last one. */
  lemma {:induction false} LastAuthUrlIsLast(ts: seq<Token>)
    ensures LastAuthUrl(ts).None? <==> forall k :: 0 <= k < |ts| ==> !IsAuth(ts[k])
    ensures LastAuthUrl(ts).Some? ==>
              exists k :: 0 <= k < |ts| && IsAuth(ts[k]) && ts[k].url == LastAuthUrl(ts).value
                          && forall j :: k < j < |ts| ==> !IsAuth(ts[j])
    decreases |ts|
  {
    if |ts| > 0 && !IsAuth(Last(ts)) {
      var p := AllButLast(ts);
      LastAuthUrlIsLast(p);
      assert forall k :: 0 <= k < |p| ==> p[k] == ts[k];
      if LastAuthUrl(p).Some? {
        var k :| 0 <= k < |p| && IsAuth(p[k]) && p[k].url == LastAuthUrl(p).value
                   && forall j :: k < j < |p| ==> !IsAuth(p[j]);
        assert IsAuth(ts[k]) && ts[k].url == LastAuthUrl(ts).value;
        assert forall j :: k < j < |ts| ==> !IsAuth(ts[j]);
      }
    } else if |ts| > 0 {
      assert IsAuth(ts[|ts| - 1]);
    }
  }

  /** The rewritten text and the auth url it remembers. */
  function RewriteLinks(s: string): (string, Option<string>)
  {
    (Render(Tokens(s)), LastAuthUrl(Tokens(s)))
  }

  /** Text with no `[` in it cuts into characters only, which render as themselves. */
  lemma {:induction false} LinkFreeTokens(s: string)
    requires '[' !in s
    ensures Render(Tokens(s)) == s
    ensures |Tokens(s)| == |s|
    ensures forall k :: 0 <= k < |Tokens(s)| ==> Tokens(s)[k] == Char(s[k])
    decreases |s|
  {
    if |s| > 0 {
      assert LinkAt(s).None?;
      assert Next(s) == (Char(s[0]), 1);
      var rest := s[1..];
      assert '[' !in rest by {
        forall k | 0 <= k < |rest| ensures rest[k] != '[' {
          assert rest[k] == s[k + 1];
        }
      }
      LinkFreeTokens(rest);
      var ts := Tokens(s);
      assert ts == [Char(s[0])] + Tokens(rest);
      assert ts[1..] == Tokens(rest);
      assert |ts| == |s|;
      forall k | 1 <= k < |ts| ensures ts[k] == Char(s[k]) {
        assert ts[k] == Tokens(rest)[k - 1];
        assert s[k] == rest[k - 1];
      }
      assert s == [s[0]] + rest;
    }
  }

  /** Text with no `[` in it has no link: the rewrite leaves it alone and remembers nothing. */
  lemma LinkFreeUnchanged(s: string)
    requires '[' !in s
    ensures RewriteLinks(s) == (s, None)
  {
    LinkFreeTokens(s);
    LastAuthUrlIsLast(Tokens(s));
  }

  /** The first `c` in a text is the one after a stretch without `c`. */
  lemma {:induction false} IndexOfCharAt(a: string, c: char, b: string)
    requires c !in a
    ensures IndexOfChar(a + [c] + b, c) == |a|
    decreases |a|
  {
    if |a| > 0 {
      assert (a + [c] + b)[1..] == a[1..] + [c] + b;
      IndexOfCharAt(a[1..], c, b);
    }
  }

  /** `LinkAt` reads a link off a text whose first `]` and the first `)` after it are where the link's source puts them. */
  lemma LinkAtWith(s: string, j: nat, k: nat)
    requires 1 < j && j + 2 < k < |s| && s[0] == '[' && s[j + 1] == '('
    requires IndexOfChar(s[1..], ']') == j - 1 && IndexOfChar(s[j + 2..], ')') == k - j - 2
    ensures LinkAt(s) == Some(LinkMatch(s[1..j], s[j + 2..k], k + 1))
  {
  }

  /** Conversely to `LinkAt`'s contract: a well-formed link at the start of a text is found, whole, whatever follows it. */
  lemma LinkAtFinds(text: string, url: string, rest: string)
    requires WellFormed(Link(text, url))
    ensures LinkAt(LinkSource(text, url) + rest) == Some(LinkMatch(text, url, |text| + |url| + 4))
  {
    var s := LinkSource(text, url) + rest;
    var j, k := 1 + |text|, 3 + |text| + |url|;
    var after := "(" + url + ")" + rest;
    assert s[0] == '[' && s[1..] == text + [']'] + after && s[1..j] == text by {
      assert s == "[" + text + "](" + url + ")" + rest;
    }
    assert s[j + 1] == '(' && s[j + 2..] == url + [')'] + rest && s[j + 2..k] == url by {
      assert s == "[" + text + "](" + url + ")" + rest;
      assert s[j + 1..] == after;
    }
    IndexOfCharAt(text, ']', after);
    IndexOfCharAt(url, ')', rest);
    LinkAtWith(s, j, k);
  }

  /** The scan turns a well-formed link at the start into one link token and goes on after it. */
  lemma TokensAtLink(text: string, url: string, rest: string)
    requires WellFormed(Link(text, url))
    ensures Tokens(LinkSource(text, url) + rest) == [Link(text, url)] + Tokens(rest)
  {
    var s := LinkSource(text, url) + rest;
    LinkAtFinds(text, url, rest);
    assert Next(s) == (Link(text, url), |text| + |url| + 4);
    assert s[|text| + |url| + 4..] == rest;
  }

  /** Where no link starts, the scan takes one character. */
  lemma TokensAtChar(c: char, rest: string)
    requires c != '['
    ensures Tokens([c] + rest) == [Char(c)] + Tokens(rest)
  {
    var x := [c] + rest;
    assert x[0] == c && x[1..] == rest;
    assert LinkAt(x).None?;
  }

  /** Text with no `[` in it cuts into the same tokens whatever follows it. */
  lemma {:induction false} TokensLinkFreePrefix(pre: string, s: string)
    requires '[' !in pre
    ensures Tokens(pre + s) == Tokens(pre) + Tokens(s)
    decreases |pre|
  {
    if |pre| == 0 {
      assert pre + s == s;
    } else {
      var c, tail := pre[0], pre[1..];
      NoOpenInTail(pre);
      assert pre == [c] + tail && pre + s == [c] + (tail + s);
      TokensLinkFreePrefix(tail, s);
      TokensAtChar(c, tail + s);
      TokensAtChar(c, tail);
      SeqAssoc([Char(c)], Tokens(tail), Tokens(s));
    }
  }

  lemma NoOpenInTail(pre: string)
    requires |pre| > 0 && '[' !in pre
    ensures pre[0] != '[' && '[' !in pre[1..]
  {
    assert pre[0] in pre;
    forall k | 0 <= k < |pre| - 1 ensures pre[1..][k] != '[' {
      assert pre[1..][k] == pre[k + 1];
    }
  }

  /** A well-formed link after text with no `[` is found as a link. */
  lemma LinkFound(pre: string, text: string, url: string, rest: string)
    requires '[' !in pre && WellFormed(Link(text, url))
    ensures Tokens(pre + LinkSource(text, url) + rest) == Tokens(pre) + [Link(text, url)] + Tokens(rest)
  {
    assert pre + LinkSource(text, url) + rest == pre + (LinkSource(text, url) + rest);
    TokensLinkFreePrefix(pre, LinkSource(text, url) + rest);
    TokensAtLink(text, url, rest);
  }

  lemma {:induction false} RenderAppend(a: seq<Token>, b: seq<Token>)
    ensures Render(a + b) == Render(a) + Render(b)
    decreases |a|
  {
    if |a| == 0 {
      assert a + b == b;
    } else {
      assert (a + b)[0] == a[0];
      assert (a + b)[1..] == a[1..] + b;
      RenderAppend(a[1..], b);
    }
  }

  /** The auth url remembered from tokens with at most one auth link, at a known place. */
  lemma LastAuthAround(tp: seq<Token>, t: Token, tq: seq<Token>)
    requires forall k :: 0 <= k < |tp| ==> !IsAuth(tp[k])
    requires forall k :: 0 <= k < |tq| ==> !IsAuth(tq[k])
    ensures LastAuthUrl(tp + [t] + tq) == if IsAuth(t) then Some(t.url) else None
  {
    var ts := tp + [t] + tq;
    var n := |tp|;
    LastAuthUrlIsLast(ts);
    assert ts[n] == t;
    forall k | 0 <= k < |ts| && k != n ensures !IsAuth(ts[k]) {
      if k < n {
        assert ts[k] == tp[k];
      } else {
        assert ts[k] == tq[k - n - 1];
      }
    }
  }

  /**
   * A message holding one well-formed link gets exactly that link replaced by
   * its anchor, and remembers its url exactly when it is an auth link.
   */
  lemma RewriteOneLink(pre: string, text: string, url: string, post: string)
    requires '[' !in pre && '[' !in post && WellFormed(Link(text, url))
    ensures RewriteLinks(pre + LinkSource(text, url) + post)
            == (pre + Anchor(text, url) + post, if Classify(url) == AuthLink then Some(url) else None)
  {
    var link := Link(text, url);
    var tp, tq := Tokens(pre), Tokens(post);
    LinkFound(pre, text, url, post);
    LinkFreeTokens(pre);
    LinkFreeTokens(post);
    RenderAround(tp, link, tq);
    LastAuthAround(tp, link, tq);
    RewriteOf(pre + LinkSource(text, url) + post, tp + [link] + tq);
  }

  lemma RenderAround(tp: seq<Token>, t: Token, tq: seq<Token>)
    ensures Render(tp + [t] + tq) == Render(tp) + RenderToken(t) + Render(tq)
  {
    SeqAssoc(tp, [t], tq);
    RenderAppend(tp, [t] + tq);
    RenderAppend([t], tq);
    assert Render([t]) == RenderToken(t);
  }

  lemma RewriteOf(s: string, ts: seq<Token>)
    requires Tokens(s) == ts
    ensures RewriteLinks(s) == (Render(ts), LastAuthUrl(ts))
  {
  }
}
