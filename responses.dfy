/** Page responses and how `dpla_fetch` combines them: the `docs` arrays are
    joined in page order, and a response without `docs` counts as empty.
    Records are opaque, so they are a type parameter `D`. */
module Responses {

  import opened Wrappers

  /** The part of a page's JSON that the fetcher reads: its optional `docs`. */
  datatype Response<D> = Response(docs: Option<seq<D>>)

  /** `dic.get('docs', [])`. */
  function DocsOf<D>(response: Response<D>): seq<D>
  {
    match response.docs
    case Some(docs) => docs
    case None => []
  }

  /** The records of all pages, page after page. */
  function Flatten<D>(responses: seq<Response<D>>): seq<D>
  {
    if responses == [] then [] else DocsOf(responses[0]) + Flatten(responses[1..])
  }

  /** The number of records across the pages. */
  function TotalDocs<D>(responses: seq<Response<D>>): nat
  {
    if responses == [] then 0 else |DocsOf(responses[0])| + TotalDocs(responses[1..])
  }

  lemma {:induction false} FlattenAppend<D>(a: seq<Response<D>>, b: seq<Response<D>>)
    ensures Flatten(a + b) == Flatten(a) + Flatten(b)
  {
    if a == [] {
      assert a + b == b;
    } else {
      assert (a + b)[1..] == a[1..] + b;
      FlattenAppend(a[1..], b);
    }
  }

  /** The result holds exactly as many records as the pages together. */
  lemma {:induction false} FlattenLength<D>(responses: seq<Response<D>>)
    ensures |Flatten(responses)| == TotalDocs(responses)
  {
    if responses != [] {
      FlattenLength(responses[1..]);
    }
  }

  /** Record `j` of page `i` sits right after the records of pages before
      `i`: page order and order within a page are both kept. */
  lemma {:induction false} FlattenAt<D>(responses: seq<Response<D>>, i: nat, j: nat)
    requires i < |responses| && j < |DocsOf(responses[i])|
    ensures TotalDocs(responses[..i]) + j < |Flatten(responses)|
    ensures Flatten(responses)[TotalDocs(responses[..i]) + j] == DocsOf(responses[i])[j]
  {
    FlattenLength(responses);
    if i == 0 {
      assert responses[..i] == [];
    } else {
      var tail := responses[1..];
      FlattenAt(tail, i - 1, j);
      assert responses[..i][1..] == tail[..i - 1];
      assert TotalDocs(responses[..i]) == |DocsOf(responses[0])| + TotalDocs(tail[..i - 1]);
    }
  }

  /** Every record of the result comes from some page, and every record of
      every page is in the result. */
  lemma {:induction false} FlattenMembers<D>(responses: seq<Response<D>>, x: D)
    ensures x in Flatten(responses) <==> exists i :: 0 <= i < |responses| && x in DocsOf(responses[i])
  {
    if responses != [] {
      FlattenMembers(responses[1..], x);
      if x in Flatten(responses[1..]) {
        var i :| 0 <= i < |responses[1..]| && x in DocsOf(responses[1..][i]);
        assert x in DocsOf(responses[i + 1]);
      }
      if exists i :: 0 <= i < |responses| && x in DocsOf(responses[i]) {
        var i :| 0 <= i < |responses| && x in DocsOf(responses[i]);
        if i > 0 {
          assert x in DocsOf(responses[1..][i - 1]);
        }
      }
    }
  }

  /** A page without `docs` adds nothing and raises nothing: removing it
      leaves the result unchanged. */
  lemma MissingDocsAddNothing<D>(before: seq<Response<D>>, after: seq<Response<D>>)
    ensures Flatten(before + [Response(None)] + after) == Flatten(before + after)
  {
    FlattenAppend(before + [Response(None)], after);
    FlattenAppend(before, [Response(None)]);
    FlattenAppend(before, after);
    var missing: seq<Response<D>> := [Response(None)];
    assert Flatten(missing) == [];
  }

  /** Combines the per-page responses by appending each record of each page
      in turn. */
  method CombineResults<D>(jsonDics: seq<Response<D>>) returns (results: seq<D>)
    ensures results == Flatten(jsonDics)
  {
    results := [];
    for k := 0 to |jsonDics|
      invariant results == Flatten(jsonDics[..k])
    {
      var docs := DocsOf(jsonDics[k]);
      for j := 0 to |docs|
        invariant results == Flatten(jsonDics[..k]) + docs[..j]
      {
        results := results + [docs[j]];
      }
      assert jsonDics[..k + 1] == jsonDics[..k] + [jsonDics[k]];
      FlattenAppend(jsonDics[..k], [jsonDics[k]]);
      assert Flatten([jsonDics[k]]) == docs;
    }
    assert jsonDics[..|jsonDics|] == jsonDics;
  }
}
