/** The `htmx:afterSwap` handler of templates/js/init_chat.js: after htmx
    swaps content into `#chatbox`, every root-relative link in it is turned
    into an htmx request against the backend, so navigation stays inside the
    chat panel. The swapped-in elements are an array rewritten in place. */
module ChatLinks {
  import opened Text

  /** An element of the swapped content: its tag name (lower case, as the
      HTML parser reports it) and its attributes. */
  datatype Element = Element(tag: string, attrs: map<string, string>)

  /** `a[href^='/']`: an anchor whose `href` starts with "/". */
  predicate IsRootLink(e: Element)
  {
    e.tag == "a" && "href" in e.attrs && StartsWith(e.attrs["href"], "/")
  }

  /** The rewrite of one anchor: `hx-get` is the backend URL followed by the
      original `href`, the response goes into `#chatbox` as inner HTML, and
      the `href` is removed. Other elements are left alone. */
  function Rewrite(e: Element, baseURL: string): (r: Element)
    ensures !IsRootLink(r)
    ensures r.tag == e.tag
    ensures IsRootLink(e) ==>
      "href" !in r.attrs && "hx-get" in r.attrs && "hx-target" in r.attrs && "hx-swap" in r.attrs
      && r.attrs["hx-get"] == baseURL + e.attrs["href"]
      && r.attrs["hx-target"] == "#chatbox" && r.attrs["hx-swap"] == "innerHTML"
      && (forall k :: k in e.attrs && k !in {"href", "hx-get", "hx-target", "hx-swap"}
                      ==> k in r.attrs && r.attrs[k] == e.attrs[k])
      && (forall k :: k in r.attrs ==> k in e.attrs || k in {"hx-get", "hx-target", "hx-swap"})
    ensures !IsRootLink(e) ==> r == e
  {
    if IsRootLink(e) then
      var href := e.attrs["href"];
      Element(e.tag, (e.attrs - {"href"})["hx-get" := baseURL + href]
                                         ["hx-target" := "#chatbox"]
                                         ["hx-swap" := "innerHTML"])
    else e
  }

  /** The whole swapped content after the handler ran on `#chatbox`. */
  function RewriteAll(es: seq<Element>, baseURL: string): (rs: seq<Element>)
    ensures |rs| == |es|
    ensures forall i :: 0 <= i < |es| ==> rs[i] == Rewrite(es[i], baseURL)
  {
    seq(|es|, i requires 0 <= i < |es| => Rewrite(es[i], baseURL))
  }

  /** After the rewrite no root-relative link is left, and running the
      handler again over the same content changes nothing. */
  lemma RewriteAllLeavesNoRootLinks(es: seq<Element>, baseURL: string)
    ensures forall i :: 0 <= i < |es| ==> !IsRootLink(RewriteAll(es, baseURL)[i])
    ensures RewriteAll(RewriteAll(es, baseURL), baseURL) == RewriteAll(es, baseURL)
  {
  }

  /** The `htmx:afterSwap` listener: only a swap whose target is `#chatbox`
      rewrites its anchors; the elements are visited in document order. */
  method AfterSwap(targetId: string, content: array<Element>, baseURL: string)
    modifies content
    ensures targetId == "chatbox" ==> content[..] == RewriteAll(old(content[..]), baseURL)
    ensures targetId != "chatbox" ==> content[..] == old(content[..])
  {
    if targetId != "chatbox" {
      return;
    }
    var i := 0;
    while i < content.Length
      invariant 0 <= i <= content.Length
      invariant forall j :: 0 <= j < i ==> content[j] == Rewrite(old(content[j]), baseURL)
      invariant forall j :: i <= j < content.Length ==> content[j] == old(content[j])
    {
      var a := content[i];
      if IsRootLink(a) {
        var original := a.attrs["href"];
        var attrs := a.attrs["hx-get" := baseURL + original];
        attrs := attrs["hx-target" := "#chatbox"];
        attrs := attrs["hx-swap" := "innerHTML"];
        attrs := attrs - {"href"};
        content[i] := Element(a.tag, attrs);
        assert content[i] == Rewrite(a, baseURL);
      }
      i := i + 1;
    }
  }
}
