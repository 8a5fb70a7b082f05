/** The request builders of app/lib/api/anuncios/anuncio.ts: the two
    multipart bodies, assembled by appending to a `FormData`, the query
    parameters of `searchAnuncios`, and the random-ad lookup that turns a
    failed request into `null`. The requests themselves are not part of
    this model. */
module Anuncios {
  import opened Common
  import opened Text
  import opened PlainFetch

  const API_BASE := "/v1/adds"

  datatype AddType = TEXT_BANNER | MEDIA_VERTICAL | MEDIA_HORIZONTAL

  /** The enum's string value. */
  function AddTypeName(t: AddType): string {
    match t
    case TEXT_BANNER => "TEXT_BANNER"
    case MEDIA_VERTICAL => "MEDIA_VERTICAL"
    case MEDIA_HORIZONTAL => "MEDIA_HORIZONTAL"
  }

  /** An uploaded file; its contents are not looked at. */
  datatype File = File(name: string, size: nat)

  /** A `FormData` entry value: a string or a file. */
  datatype FormValue = Text(text: string) | Blob(file: File)

  /** A `FormData`: its entries, in the order they were appended. */
  class FormData {
    var entries: seq<(string, FormValue)>

    constructor ()
      ensures entries == []
    {
      entries := [];
    }

    /** `fd.append(name, value)`: adds an entry at the end, even when the
        name is already there. */
    method Append(name: string, value: FormValue)
      modifies this
      ensures entries == old(entries) + [(name, value)]
    {
      entries := entries + [(name, value)];
    }
  }

  /** `fd.get(name)`: the value of the first entry with that name. */
  function FirstValue(entries: seq<(string, FormValue)>, name: string): (r: Option<FormValue>)
    ensures r.None? <==> forall i :: 0 <= i < |entries| ==> entries[i].0 != name
    ensures r.Some? ==>
      exists i :: 0 <= i < |entries| && entries[i] == (name, r.value)
        && (forall j :: 0 <= j < i ==> entries[j].0 != name)
  {
    if |entries| == 0 then None
    else if entries[0].0 == name then Some(entries[0].1)
    else
      var r := FirstValue(entries[1..], name);
      assert forall j :: 1 <= j < |entries| ==> entries[j] == entries[1..][j - 1];
      r
  }

  function Keys(entries: seq<(string, FormValue)>): (ks: seq<string>)
    ensures |ks| == |entries|
    ensures forall i :: 0 <= i < |entries| ==> ks[i] == entries[i].0
  {
    if |entries| == 0 then [] else [entries[0].0] + Keys(entries[1..])
  }

  // ---- create ----

  /** `CreateAnuncioMultipart`. */
  datatype CreateAnuncio = CreateAnuncio(
    content: string,
    addType: AddType,
    description: string,
    cinemaId: string,
    urlContent: string,
    userId: string,
    durationDaysId: string,
    file: File)

  /** The entries of the create body, in append order. */
  function CreateEntries(a: CreateAnuncio): seq<(string, FormValue)> {
    [ ("content", Text(a.content)),
      ("type", Text(AddTypeName(a.addType))),
      ("description", Text(a.description)),
      ("cinemaId", Text(a.cinemaId)),
      ("urlContent", Text(a.urlContent)),
      ("userId", Text(a.userId)),
      ("durationDaysId", Text(a.durationDaysId)),
      ("file", Blob(a.file)) ]
  }

  /** `toAnuncioFormData`. */
  method ToAnuncioFormData(a: CreateAnuncio) returns (fd: FormData)
    ensures fresh(fd)
    ensures fd.entries == CreateEntries(a)
  {
    fd := new FormData();
    fd.Append("content", Text(a.content));
    fd.Append("type", Text(AddTypeName(a.addType)));
    fd.Append("description", Text(a.description));
    fd.Append("cinemaId", Text(a.cinemaId));
    fd.Append("urlContent", Text(a.urlContent));
    fd.Append("userId", Text(a.userId));
    fd.Append("durationDaysId", Text(a.durationDaysId));
    fd.Append("file", Blob(a.file));
  }

  const CREATE_KEYS := ["content", "type", "description", "cinemaId", "urlContent", "userId", "durationDaysId", "file"]

  /** Eight entries under the eight field names, in order, each holding the
      field of the same name. */
  lemma CreateFormFields(a: CreateAnuncio)
    ensures |CreateEntries(a)| == 8
    ensures Keys(CreateEntries(a)) == CREATE_KEYS
    ensures FirstValue(CreateEntries(a), "content") == Some(Text(a.content))
    ensures FirstValue(CreateEntries(a), "type") == Some(Text(AddTypeName(a.addType)))
    ensures FirstValue(CreateEntries(a), "description") == Some(Text(a.description))
    ensures FirstValue(CreateEntries(a), "cinemaId") == Some(Text(a.cinemaId))
    ensures FirstValue(CreateEntries(a), "urlContent") == Some(Text(a.urlContent))
    ensures FirstValue(CreateEntries(a), "userId") == Some(Text(a.userId))
    ensures FirstValue(CreateEntries(a), "durationDaysId") == Some(Text(a.durationDaysId))
    ensures FirstValue(CreateEntries(a), "file") == Some(Blob(a.file))
  {
    var es := CreateEntries(a);
    CreateEntriesDistinct(a);
    FirstOfDistinct(es, 0);
    FirstOfDistinct(es, 1);
    FirstOfDistinct(es, 2);
    FirstOfDistinct(es, 3);
    FirstOfDistinct(es, 4);
    FirstOfDistinct(es, 5);
    FirstOfDistinct(es, 6);
    FirstOfDistinct(es, 7);
  }

  /** No two entries of a form share a name. */
  predicate DistinctKeys(entries: seq<(string, FormValue)>) {
    forall j, k :: 0 <= j < k < |entries| ==> entries[j].0 != entries[k].0
  }

  /** The create body's names are all different. */
  lemma CreateKeysDistinct()
    ensures forall j, k :: 0 <= j < k < |CREATE_KEYS| ==> CREATE_KEYS[j] != CREATE_KEYS[k]
  {
  }

  /** The create body's entries carry the eight names, once each. */
  lemma CreateEntriesDistinct(a: CreateAnuncio)
    ensures Keys(CreateEntries(a)) == CREATE_KEYS
    ensures DistinctKeys(CreateEntries(a))
  {
    var es := CreateEntries(a);
    assert Keys(es) == CREATE_KEYS;
    CreateKeysDistinct();
    forall j, k | 0 <= j < k < |es| ensures es[j].0 != es[k].0 {
      assert es[j].0 == CREATE_KEYS[j] && es[k].0 == CREATE_KEYS[k];
    }
  }

  /** In a form whose names are all different, each name finds its entry. */
  lemma FirstOfDistinct(entries: seq<(string, FormValue)>, i: nat)
    requires i < |entries|
    requires DistinctKeys(entries)
    ensures FirstValue(entries, entries[i].0) == Some(entries[i].1)
  {
    var r := FirstValue(entries, entries[i].0);
    if r.Some? {
      var m :| 0 <= m < |entries| && entries[m] == (entries[i].0, r.value)
        && forall j :: 0 <= j < m ==> entries[j].0 != entries[i].0;
      assert m == i;
    }
  }

  // ---- update ----

  /** `UpdateAnuncioMultipart`; the file may be missing at run time. */
  datatype UpdateAnuncio = UpdateAnuncio(content: string, description: string, urlContent: string, file: Option<File>)

  /** The entries of the update body: three texts, then the file when
      there is one. */
  function UpdateEntries(a: UpdateAnuncio): seq<(string, FormValue)> {
    [("content", Text(a.content)), ("description", Text(a.description)), ("urlContent", Text(a.urlContent))]
      + (if a.file.Some? then [("file", Blob(a.file.value))] else [])
  }

  /** `toUpdateAnuncioFormData`. */
  method ToUpdateAnuncioFormData(a: UpdateAnuncio) returns (fd: FormData)
    ensures fresh(fd)
    ensures fd.entries == UpdateEntries(a)
  {
    fd := new FormData();
    fd.Append("content", Text(a.content));
    fd.Append("description", Text(a.description));
    fd.Append("urlContent", Text(a.urlContent));
    if a.file.Some? {
      fd.Append("file", Blob(a.file.value));
    }
  }

  /** Three entries, or four exactly when there is a file; the texts come
      first in order and the file, when present, last. */
  lemma UpdateFormShape(a: UpdateAnuncio)
    ensures var es := UpdateEntries(a);
      && |es| == (if a.file.Some? then 4 else 3)
      && Keys(es)[..3] == ["content", "description", "urlContent"]
      && es[0].1 == Text(a.content) && es[1].1 == Text(a.description) && es[2].1 == Text(a.urlContent)
      && (a.file.Some? ==> es[3] == ("file", Blob(a.file.value)))
      && (FirstValue(es, "file").Some? <==> a.file.Some?)
  {
    var es := UpdateEntries(a);
    assert Keys(es)[..3] == ["content", "description", "urlContent"];
    if a.file.Some? {
      assert es[3].0 == "file";
    }
  }

  /** The update body never carries the fields only the create body has. */
  lemma UpdateFormOmitsCreateOnlyFields(a: UpdateAnuncio, name: string)
    requires name in {"type", "cinemaId", "userId", "durationDaysId"}
    ensures FirstValue(UpdateEntries(a), name).None?
  {
  }

  // ---- search and the random ad ----

  const SEARCH_PATH := API_BASE + "/search"

  /** An object's properties after `obj[key] = value`: an existing property
      keeps its place and takes the value, a new one goes last. */
  function SetProperty(entries: seq<Entry>, key: string, value: ParamValue): (r: seq<Entry>)
    ensures (forall i :: 0 <= i < |entries| ==> entries[i].0 != key) ==> r == entries + [(key, value)]
    ensures (key, value) in r
    ensures forall e :: e in entries && e.0 != key ==> e in r
  {
    if |entries| == 0 then [(key, value)]
    else if entries[0].0 == key then [(key, value)] + entries[1..]
    else [entries[0]] + SetProperty(entries[1..], key, value)
  }

  /** `{ ...filter, page }` with `page` defaulting to 0. */
  function SearchParams(filter: seq<Entry>, page: Option<int>): (ps: seq<Entry>)
    ensures ("page", Int(page.GetOr(0))) in ps
    ensures forall e :: e in filter && e.0 != "page" ==> e in ps
  {
    SetProperty(filter, "page", Int(page.GetOr(0)))
  }

  /** The filter's properties come first, unchanged and in order, and `page`
      follows them; without a page argument it is 0. */
  lemma SearchParamsShape(filter: seq<Entry>, page: Option<int>)
    requires forall i :: 0 <= i < |filter| ==> filter[i].0 != "page"
    ensures var ps := SearchParams(filter, page);
      && |ps| == |filter| + 1
      && ps[..|filter|] == filter
      && ps[|filter|] == ("page", Int(if page.Some? then page.value else 0))
  {
    var ps := SearchParams(filter, page);
    assert ps == filter + [("page", Int(page.GetOr(0)))];
    assert ps[..|filter|] == filter;
  }

  /** A `page` the filter already has keeps its position and is
      overwritten: exactly one `page` is sent. */
  lemma {:induction false} SearchParamsOverridesPage(filter: seq<Entry>, page: Option<int>, i: nat)
    requires i < |filter| && filter[i].0 == "page"
    requires forall j :: 0 <= j < i ==> filter[j].0 != "page"
    ensures var ps := SetProperty(filter, "page", Int(page.GetOr(0)));
      |ps| == |filter| && ps[i] == ("page", Int(page.GetOr(0)))
      && forall j :: 0 <= j < |filter| && j != i ==> ps[j] == filter[j]
    decreases i
  {
    var v := Int(page.GetOr(0));
    if i > 0 {
      SearchParamsOverridesPage(filter[1..], page, i - 1);
      var rest := SetProperty(filter[1..], "page", v);
      assert SetProperty(filter, "page", v) == [filter[0]] + rest;
    }
  }

  /** The path of the random lookup. */
  function RandomAdPath(cinemaId: string, t: AddType): (p: string)
    ensures StartsWith(p, API_BASE + "/public/cinema/" + cinemaId + "/type/")
  {
    API_BASE + "/public/cinema/" + cinemaId + "/type/" + AddTypeName(t) + "/random"
  }

  /** The query parameters of the random lookup, `{ cinemaId, type }`. */
  function RandomAdParams(cinemaId: string, t: AddType): (ps: seq<Entry>)
    ensures |ps| == 2 && ps[0] == ("cinemaId", Str(cinemaId)) && ps[1].0 == "type" && ps[1].1.Str?
    ensures RandomAdPath(cinemaId, t) == API_BASE + "/public/cinema/" + ps[0].1.s + "/type/" + ps[1].1.s + "/random"
  {
    [("cinemaId", Str(cinemaId)), ("type", Str(AddTypeName(t)))]
  }

  /** `getAnuncioAleatorioByCinemaAndType`: the response when the request
      succeeds (which may itself be `null`), and `null` when it fails,
      whatever the error. */
  function RandomAd<T>(outcome: Result<Option<T>, ApiError>): (r: Option<T>)
    ensures outcome.Failure? ==> r.None?
    ensures outcome.Success? ==> r == outcome.value
  {
    match outcome
    case Success(ad) => ad
    case Failure(_) => None
  }

  /** The lookup never surfaces an error: its result is the same for every
      failure. */
  lemma RandomAdSwallowsErrors<T>(e1: ApiError, e2: ApiError)
    ensures RandomAd<T>(Failure(e1)) == RandomAd<T>(Failure(e2)) == None
  {
  }
}
