/**
 * Building and reading JSON:API documents for list and single-resource
 * endpoints: pagination links, `meta`, de-duplication of included
 * resources, and extracting the one resource of a request body.
 */
module Utils {
  import opened Wrappers
  import opened Text
  import opened JsonApi

  // ----------------------------------------------------------------------
  // Pagination links
  // ----------------------------------------------------------------------

  const NumberQuery := "?page[number]="
  const SizeQuery := ",page[size]="

  /** `create_link`: the URL of one page of the listing. */
  function CreateLink(url: string, number: int, size: int): string
  {
    url + NumberQuery + IntToString(number) + SizeQuery + IntToString(size)
  }

  /** Reads the page number and size back out of a link made for `url`. */
  function ParseLink(url: string, link: string): Option<(int, int)>
  {
    var prefix := url + NumberQuery;
    if |link| < |prefix| || link[..|prefix|] != prefix then None
    else
      var rest := link[|prefix|..];
      match FirstIndex(rest, ',')
      case None => None
      case Some(c) =>
        if |rest| - c < |SizeQuery| || rest[c..c + |SizeQuery|] != SizeQuery then None
        else Some((ParseInt(rest[..c]), ParseInt(rest[c + |SizeQuery|..])))
  }

  /** A link names its page: reading it back gives the number and the size it was made from. */
  lemma ParseCreateLink(url: string, number: int, size: int)
    ensures ParseLink(url, CreateLink(url, number, size)) == Some((number, size))
  {
    var link := CreateLink(url, number, size);
    var prefix := url + NumberQuery;
    var n, s := IntToString(number), IntToString(size);
    assert link == prefix + (n + SizeQuery + s);
    assert link[..|prefix|] == prefix;
    var rest := link[|prefix|..];
    assert rest == n + SizeQuery + s;
    assert ',' !in n by {
      assert forall k :: 0 <= k < |n| ==> n[k] != ',';
    }
    assert rest[..|n|] == n;
    FirstIndexAt(rest, ',', |n|);
    assert rest[|n|..|n| + |SizeQuery|] == SizeQuery;
    assert rest[|n| + |SizeQuery|..] == s;
    ParseIntToString(number);
    ParseIntToString(size);
  }

  /** Different pages of the same listing get different links. */
  lemma CreateLinkInjective(url: string, n1: int, s1: int, n2: int, s2: int)
    requires CreateLink(url, n1, s1) == CreateLink(url, n2, s2)
    ensures n1 == n2 && s1 == s2
  {
    ParseCreateLink(url, n1, s1);
    ParseCreateLink(url, n2, s2);
  }

  /** The zero-based number of the last page: `total_count / size - 1` with `i64` division, 0 for size 0. */
  function LastPage(total: int, size: int): (last: int)
    ensures size == 0 ==> last == 0
    ensures size > 0 && total >= 0 ==> last == total / size - 1
    ensures size > 0 && total >= 0 ==> last * size <= total - size && total < (last + 2) * size
  {
    if size != 0 then RustDiv(total, size) - 1 else 0
  }

  /**
   * The `links` member of a page: "first" and "prev" exactly when there is
   * an earlier page, "next" and "last" exactly when this page lies before the
   * last one, and no member at all when there is neither.
   */
  function PageLinks(total: int, page: PageParams, url: string): (r: Option<map<string, Value>>)
    ensures var last := LastPage(total, page.size);
      && (r.None? <==> page.number <= 0 && page.number >= last)
      && (r.Some? ==>
            var m := r.value;
            && m.Keys <= {"first", "prev", "next", "last"}
            && ("first" in m <==> page.number > 0) && ("prev" in m <==> page.number > 0)
            && ("next" in m <==> page.number < last) && ("last" in m <==> page.number < last)
            && (page.number > 0 ==>
                  && m["first"] == Str(CreateLink(url, 0, page.size))
                  && m["prev"] == Str(CreateLink(url, page.number - 1, page.size)))
            && (page.number < last ==>
                  && m["next"] == Str(CreateLink(url, page.number + 1, page.size))
                  && m["last"] == Str(CreateLink(url, last, page.size))))
  {
    var last := LastPage(total, page.size);
    var back: map<string, Value> :=
      if page.number > 0 then
        map["first" := Str(CreateLink(url, 0, page.size)), "prev" := Str(CreateLink(url, page.number - 1, page.size))]
      else map[];
    var links :=
      if page.number < last then
        back["next" := Str(CreateLink(url, page.number + 1, page.size))]["last" := Str(CreateLink(url, last, page.size))]
      else back;
    if page.number <= 0 && page.number >= last then None
    else
      assert page.number > 0 ==> "first" in links;
      Some(links)
  }

  /** `create_links_hashmap`: builds the links by conditional inserts into an empty map. */
  method CreateLinksHashmap(total: int, page: PageParams, url: string) returns (r: Option<map<string, Value>>)
    ensures r == PageLinks(total, page, url)
  {
    var links: map<string, Value> := map[];
    var last := LastPage(total, page.size);
    if page.number > 0 {
      links := links["first" := Str(CreateLink(url, 0, page.size))];
      links := links["prev" := Str(CreateLink(url, page.number - 1, page.size))];
    }
    if page.number < last {
      links := links["next" := Str(CreateLink(url, page.number + 1, page.size))];
      links := links["last" := Str(CreateLink(url, last, page.size))];
    }
    assert page.number > 0 ==> "first" in links;
    assert page.number < last ==> "next" in links;
    if |links| == 0 {
      r := None;
    } else {
      r := Some(links);
    }
  }

  /** The `meta` member of a page: the total count and the page parameters. */
  function Meta(total: int, page: PageParams): (m: map<string, Value>)
    ensures m.Keys == {"total_count", "page_number", "page_size"}
    ensures m["total_count"] == Num(total) && m["page_number"] == Num(page.number) && m["page_size"] == Num(page.size)
  {
    map["total_count" := Num(total), "page_number" := Num(page.number), "page_size" := Num(page.size)]
  }

  // ----------------------------------------------------------------------
  // Included resources
  // ----------------------------------------------------------------------

  /** What identifies a resource: its id and its type. */
  function Key(r: Resource): (string, string)
  {
    (r.id, r.rtype)
  }

  function Keys(v: seq<Resource>): set<(string, string)>
  {
    set i | 0 <= i < |v| :: Key(v[i])
  }

  /** The resources whose key did not occur earlier, in their original order. */
  function Unique(v: seq<Resource>): seq<Resource>
  {
    if v == [] then []
    else
      var init, last := v[..|v| - 1], v[|v| - 1];
      Unique(init) + (if Key(last) in Keys(init) then [] else [last])
  }

  /** The positions `Unique` keeps. */
  function Kept(v: seq<Resource>): seq<nat>
  {
    if v == [] then []
    else
      var init, last := v[..|v| - 1], v[|v| - 1];
      Kept(init) + (if Key(last) in Keys(init) then [] else [|v| - 1])
  }

  lemma KeysSnoc(v: seq<Resource>, r: Resource)
    ensures Keys(v + [r]) == Keys(v) + {Key(r)}
  {
    assert forall i :: 0 <= i < |v| ==> (v + [r])[i] == v[i];
    assert (v + [r])[|v|] == r;
  }

  /**
   * The de-duplicated list: keeps exactly the first occurrence of every key,
   * as a subsequence of the input in the input's order, and loses no key.
   */
  lemma {:induction false} UniqueFirstOccurrences(v: seq<Resource>)
    ensures var u, idx := Unique(v), Kept(v);
      && |idx| == |u|
      && (forall k :: 0 <= k < |idx| ==> idx[k] < |v| && u[k] == v[idx[k]])
      && (forall k, l :: 0 <= k < l < |idx| ==> idx[k] < idx[l])
      && (forall k, m :: 0 <= k < |idx| && 0 <= m < idx[k] ==> Key(v[m]) != Key(v[idx[k]]))
      && Keys(u) == Keys(v)
  {
    if v != [] {
      var init, last := v[..|v| - 1], v[|v| - 1];
      UniqueFirstOccurrences(init);
      assert v == init + [last];
      KeysSnoc(init, last);
      KeysSnoc(Unique(init), last);
      assert forall m :: 0 <= m < |init| ==> init[m] == v[m];
      if Key(last) in Keys(init) {
        assert Unique(v) == Unique(init);
        assert Kept(v) == Kept(init);
      }
    }
  }

  /** No two kept resources share a key. */
  lemma UniqueDistinct(v: seq<Resource>)
    ensures var u := Unique(v);
      forall k, l :: 0 <= k < l < |u| ==> Key(u[k]) != Key(u[l])
  {
    UniqueFirstOccurrences(v);
  }

  /** The filter over the `seen` set: a resource passes when inserting its key adds it. */
  method DedupIncluded(v: seq<Resource>) returns (out: seq<Resource>)
    ensures out == Unique(v)
  {
    var seen: set<(string, string)> := {};
    out := [];
    for k := 0 to |v|
      invariant out == Unique(v[..k]) && seen == Keys(v[..k])
    {
      assert v[..k + 1] == v[..k] + [v[k]];
      KeysSnoc(v[..k], v[k]);
      var key := Key(v[k]);
      if key !in seen {
        seen := seen + {key};
        out := out + [v[k]];
      }
    }
    assert v[..|v|] == v;
  }

  /**
   * `vec_to_jsonapi_document`, given the resources and included resources the
   * library derives from the objects and the listing's URL: a data document
   * with the resources, the de-duplicated included list, the meta and the links.
   */
  method VecToJsonApiDocument(resources: seq<Resource>, included: Option<seq<Resource>>,
                              total: int, page: PageParams, url: string) returns (doc: Document)
    ensures doc == DataDoc(Some(Multiple(resources)),
                           if included.Some? then Some(Unique(included.value)) else None,
                           Some(Meta(total, page)),
                           PageLinks(total, page, url))
  {
    var kept := included;
    if included.Some? {
      var vector := DedupIncluded(included.value);
      kept := Some(vector);
    }
    var meta: map<string, Value> := map[];
    meta := meta["total_count" := Num(total)];
    meta := meta["page_number" := Num(page.number)];
    meta := meta["page_size" := Num(page.size)];
    var links := CreateLinksHashmap(total, page, url);
    doc := DataDoc(Some(Multiple(resources)), kept, Some(meta), links);
  }

  // ----------------------------------------------------------------------
  // Request bodies
  // ----------------------------------------------------------------------

  /**
   * An error response of the application: the HTTP response sent and the
   * reason written to the error log, which the response does not carry.
   */
  datatype AppErrorResponse = AppErrorResponse(response: Response, reason: string)

  /** `app_err_response!` with 400: status "400", the canonical title, no detail, no source. */
  function BadRequest(reason: string): AppErrorResponse
  {
    AppErrorResponse(Response(400, ErrorDoc([ApiError(Some("400"), None, Some("Bad Request"), None, None)])), reason)
  }

  /**
   * `get_data_from_doc`, given the library's validation of the document:
   * the single primary resource of a valid data document, otherwise a bad
   * request whose reason names what is wrong.
   */
  function GetDataFromDoc(doc: Document, validation: Option<seq<ValidationError>>): (r: Result<Resource, AppErrorResponse>)
    ensures r.Success? <==> validation.None? && doc.DataDoc? && doc.data.Some? && doc.data.value.Single?
    ensures r.Success? ==> r.value == doc.data.value.resource
    ensures r.Failure? ==> r.error == BadRequest(r.error.reason)
    ensures validation.Some? ==>
      r.error.reason == (if IncludedWithoutData in validation.value then "Included Without Data" else "Missing Content")
    ensures validation.None? && doc.ErrorDoc? ==> r.error.reason == "Contains Error Data"
    ensures validation.None? && doc.DataDoc? && doc.data.None? ==> r.error.reason == "Missing Data"
    ensures validation.None? && doc.DataDoc? && doc.data.Some? && !doc.data.value.Single? ==>
      r.error.reason == "Too Many Resources"
  {
    match validation
    case Some(errors) =>
      if IncludedWithoutData in errors then Failure(BadRequest("Included Without Data"))
      else Failure(BadRequest("Missing Content"))
    case None =>
      match doc
      case ErrorDoc(_) => Failure(BadRequest("Contains Error Data"))
      case DataDoc(data, _, _, _) =>
        match data
        case Some(Single(resource)) => Success(resource)
        case Some(_) => Failure(BadRequest("Too Many Resources"))
        case None => Failure(BadRequest("Missing Data"))
  }
}
