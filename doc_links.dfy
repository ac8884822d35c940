/**
 * `collectLinks` of the documentation crawler: the anchors of a page, in
 * document order, become the list of documentation links to visit, each
 * address once, with the text of its first eligible anchor.
 */
module DocLinks {
  import opened Strings
  import Seqs

  /** An `<a>` element: its resolved `href` and its `innerText`. */
  datatype Anchor = Anchor(href: string, text: string)

  /** A collected link: the address and the trimmed anchor text. */
  datatype Link = Link(href: string, text: string)

  /**
   * The filters of `collectLinks`: an address and a non-blank text, an
   * address on the documentation host, and not a login page.
   */
  predicate Eligible(a: Anchor) {
    a.href != "" && Trim(a.text) != "" && Contains(a.href, "developers.kaiten.ru") && !Contains(a.href, "/login")
  }

  /** The text a collected link keeps: the anchor's, trimmed. */
  function LinkText(a: Anchor): string {
    Trim(a.text)
  }

  /** The addresses of some links, in order. */
  function Hrefs(links: seq<Link>): (r: seq<string>)
    ensures |r| == |links| && forall i :: 0 <= i < |links| ==> r[i] == links[i].href
  {
    seq(|links|, i requires 0 <= i < |links| => links[i].href)
  }

  /** Appending a link appends its address. */
  lemma HrefsAppend(links: seq<Link>, l: Link)
    ensures Hrefs(links + [l]) == Hrefs(links) + [l.href]
  {
    assert forall i :: 0 <= i < |links| ==> (links + [l])[i] == links[i];
  }

  /**
   * The links collected from the anchors in order: an anchor that passes
   * `ok` and whose address is not yet collected adds its link at the end.
   * The page uses `Eligible`.
   */
  function Collected(anchors: seq<Anchor>, ok: Anchor -> bool, text: Anchor -> string): seq<Link> {
    if anchors == [] then []
    else
      var before := Collected(anchors[..|anchors| - 1], ok, text);
      var a := anchors[|anchors| - 1];
      if ok(a) && a.href !in Hrefs(before) then before + [Link(a.href, text(a))] else before
  }

  /** The anchor at `i` passes `ok` and no earlier anchor that passes has its address. */
  predicate FirstOk(anchors: seq<Anchor>, ok: Anchor -> bool, i: nat)
    requires i < |anchors|
  {
    ok(anchors[i]) && forall j :: 0 <= j < i && ok(anchors[j]) ==> anchors[j].href != anchors[i].href
  }

  /** No address is collected twice. */
  lemma {:induction false} CollectedDistinct(anchors: seq<Anchor>, ok: Anchor -> bool, text: Anchor -> string)
    ensures Seqs.NoDup(Hrefs(Collected(anchors, ok, text)))
  {
    if anchors != [] {
      CollectedDistinct(anchors[..|anchors| - 1], ok, text);
    }
  }

  /** The last anchor's step of `Collected`. */
  lemma CollectedLast(anchors: seq<Anchor>, ok: Anchor -> bool, text: Anchor -> string)
    requires anchors != []
    ensures var before := Collected(anchors[..|anchors| - 1], ok, text);
      var a := anchors[|anchors| - 1];
      Hrefs(Collected(anchors, ok, text)) == Hrefs(before) + (if ok(a) && a.href !in Hrefs(before) then [a.href] else [])
  {
    var before := Collected(anchors[..|anchors| - 1], ok, text);
    var a := anchors[|anchors| - 1];
    if ok(a) && a.href !in Hrefs(before) {
      assert Collected(anchors, ok, text) == before + [Link(a.href, text(a))];
      HrefsAppend(before, Link(a.href, text(a)));
    } else {
      assert Collected(anchors, ok, text) == before;
    }
  }

  /** Every address of an anchor that passes `ok` is collected. */
  lemma {:induction false} CollectedHas(anchors: seq<Anchor>, ok: Anchor -> bool, text: Anchor -> string, i: nat)
    requires i < |anchors| && ok(anchors[i])
    ensures anchors[i].href in Hrefs(Collected(anchors, ok, text))
  {
    var n := |anchors| - 1;
    var init := anchors[..n];
    CollectedLast(anchors, ok, text);
    if i < n {
      assert init[i] == anchors[i];
      CollectedHas(init, ok, text, i);
    }
  }

  /** The link is that of an anchor that passes `ok` and is the first passing one with its address. */
  ghost predicate FromFirst(anchors: seq<Anchor>, ok: Anchor -> bool, text: Anchor -> string, l: Link) {
    exists i :: 0 <= i < |anchors| && FirstOk(anchors, ok, i) && l == Link(anchors[i].href, text(anchors[i]))
  }

  /** A link of the first anchors stays one when more anchors follow. */
  lemma FromFirstExtend(anchors: seq<Anchor>, ok: Anchor -> bool, text: Anchor -> string, n: nat, l: Link)
    requires n <= |anchors| && FromFirst(anchors[..n], ok, text, l)
    ensures FromFirst(anchors, ok, text, l)
  {
    var init := anchors[..n];
    var i :| 0 <= i < |init| && FirstOk(init, ok, i) && l == Link(init[i].href, text(init[i]));
    assert init[i] == anchors[i];
    assert FirstOk(anchors, ok, i) by {
      forall j | 0 <= j < i ensures init[j] == anchors[j] { }
    }
  }

  /** The last anchor, when it passes and its address is new, is the first passing one with that address. */
  lemma LastIsFirst(anchors: seq<Anchor>, ok: Anchor -> bool, text: Anchor -> string)
    requires anchors != []
    requires var n := |anchors| - 1; ok(anchors[n]) && anchors[n].href !in Hrefs(Collected(anchors[..n], ok, text))
    ensures FirstOk(anchors, ok, |anchors| - 1)
  {
    var n := |anchors| - 1;
    var init := anchors[..n];
    forall j | 0 <= j < n && ok(anchors[j]) ensures anchors[j].href != anchors[n].href {
      assert init[j] == anchors[j];
      CollectedHas(init, ok, text, j);
    }
  }

  /** Every collected link is the link of the first anchor that passes `ok` with its address. */
  lemma {:induction false} CollectedFirst(anchors: seq<Anchor>, ok: Anchor -> bool, text: Anchor -> string)
    ensures forall k :: 0 <= k < |Collected(anchors, ok, text)| ==> FromFirst(anchors, ok, text, Collected(anchors, ok, text)[k])
  {
    if anchors != [] {
      var n := |anchors| - 1;
      var init := anchors[..n];
      var before := Collected(init, ok, text);
      var a := anchors[n];
      var c := Collected(anchors, ok, text);
      CollectedFirst(init, ok, text);
      if ok(a) && a.href !in Hrefs(before) {
        assert c == before + [Link(a.href, text(a))];
        LastIsFirst(anchors, ok, text);
        forall k | 0 <= k < |c| ensures FromFirst(anchors, ok, text, c[k]) {
          if k < |before| {
            assert c[k] == before[k];
            FromFirstExtend(anchors, ok, text, n, before[k]);
          } else {
            assert c[k] == Link(anchors[n].href, text(anchors[n]));
          }
        }
      } else {
        assert c == before;
        forall k | 0 <= k < |c| ensures FromFirst(anchors, ok, text, c[k]) {
          assert c[k] == before[k];
          FromFirstExtend(anchors, ok, text, n, before[k]);
        }
      }
    }
  }

  /**
   * The page's links: on the documentation host, never a login page, with
   * a non-empty text, each address once, and every eligible address present.
   */
  lemma PageLinks(anchors: seq<Anchor>)
    ensures forall l :: l in Collected(anchors, Eligible, LinkText) ==>
      Contains(l.href, "developers.kaiten.ru") && !Contains(l.href, "/login") && l.text != ""
    ensures Seqs.NoDup(Hrefs(Collected(anchors, Eligible, LinkText)))
    ensures forall i :: 0 <= i < |anchors| && Eligible(anchors[i]) ==> anchors[i].href in Hrefs(Collected(anchors, Eligible, LinkText))
  {
    var c := Collected(anchors, Eligible, LinkText);
    CollectedFirst(anchors, Eligible, LinkText);
    CollectedDistinct(anchors, Eligible, LinkText);
    forall l | l in c
      ensures Contains(l.href, "developers.kaiten.ru") && !Contains(l.href, "/login") && l.text != ""
    {
      var k :| 0 <= k < |c| && c[k] == l;
      var i :| 0 <= i < |anchors| && FirstOk(anchors, Eligible, i) && c[k] == Link(anchors[i].href, LinkText(anchors[i]));
      assert Eligible(anchors[i]);
    }
    forall i | 0 <= i < |anchors| && Eligible(anchors[i]) ensures anchors[i].href in Hrefs(c) {
      CollectedHas(anchors, Eligible, LinkText, i);
    }
  }

  /** The `anchors.forEach` loop with its `seen` set. */
  method CollectLinks(anchors: seq<Anchor>) returns (result: seq<Link>)
    ensures result == Collected(anchors, Eligible, LinkText)
  {
    var seen: set<string> := {};
    result := [];
    var i := 0;
    while i < |anchors|
      invariant 0 <= i <= |anchors|
      invariant result == Collected(anchors[..i], Eligible, LinkText)
      invariant forall h :: h in seen <==> h in Hrefs(result)
    {
      var a := anchors[i];
      assert anchors[..i + 1][..i] == anchors[..i];
      if Eligible(a) && a.href !in seen {
        seen := seen + {a.href};
        HrefsAppend(result, Link(a.href, LinkText(a)));
        result := result + [Link(a.href, LinkText(a))];
      }
      i := i + 1;
    }
    assert anchors[..i] == anchors;
  }
}
