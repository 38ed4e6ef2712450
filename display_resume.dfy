/** The single-resume page: how it picks the resume out of the store's
    `resumeInfo`, the fallbacks of its heading, subtitle and body, and the
    requests it makes for the resume id in the route. */
module DisplayResume {
  import opened Wrappers
  import opened JsValues
  import ServiceSlice

  /** `Array.isArray(info) ? info[0] : info`; the first element of an empty
      array is `undefined`. */
  function Normalize(info: Value): (r: Value)
    ensures info.Arr? && |info.elems| > 0 ==> r == info.elems[0]
    ensures info.Arr? && |info.elems| == 0 ==> r == Undefined
    ensures !info.Arr? ==> r == info
  {
    if info.Arr? then (if |info.elems| > 0 then info.elems[0] else Undefined) else info
  }

  /** `resume?.title || 'Resume'`. */
  function Heading(resume: Value): (r: Value)
    ensures Truthy(r)
    ensures Truthy(Get(resume, "title")) ==> r == Get(resume, "title")
    ensures !Truthy(Get(resume, "title")) ==> r == Str("Resume")
  {
    Or(Get(resume, "title"), Str("Resume"))
  }

  /** `resume?.name || resume?.email || ''`. */
  function Subtitle(resume: Value): (r: Value)
    ensures Truthy(Get(resume, "name")) ==> r == Get(resume, "name")
    ensures !Truthy(Get(resume, "name")) && Truthy(Get(resume, "email")) ==> r == Get(resume, "email")
    ensures !Truthy(Get(resume, "name")) && !Truthy(Get(resume, "email")) ==> r == Str("")
  {
    Or(Or(Get(resume, "name"), Get(resume, "email")), Str(""))
  }

  datatype Body = ShowText(text: Value) | Placeholder

  /** The body shows the resume text when there is any, and the "no content"
      placeholder otherwise. */
  function ShowBody(resume: Value): (r: Body)
    ensures r.ShowText? <==> Truthy(Get(resume, "resume"))
    ensures r.ShowText? ==> r.text == Get(resume, "resume")
  {
    var text := Get(resume, "resume");
    if Truthy(text) then ShowText(text) else Placeholder
  }

  /** The thunks the page dispatches. */
  datatype Request = FetchSingle(id: string) | DownloadPdf(id: string) | DownloadWord(id: string)

  /** The route's id is truthy: present and not empty. */
  predicate HasId(id: Option<string>)
  {
    id.Some? && id.value != ""
  }

  /** The mount effect: fetch the resume named in the route. */
  function OnMount(id: Option<string>): (r: Option<Request>)
    ensures r.Some? <==> HasId(id)
    ensures r.Some? ==> r.value == FetchSingle(id.value)
  {
    if HasId(id) then Some(FetchSingle(id.value)) else None
  }

  function OnDownloadPdf(id: Option<string>): (r: Option<Request>)
    ensures r.Some? <==> HasId(id)
    ensures r.Some? ==> r.value == DownloadPdf(id.value)
  {
    if HasId(id) then Some(DownloadPdf(id.value)) else None
  }

  function OnDownloadWord(id: Option<string>): (r: Option<Request>)
    ensures r.Some? <==> HasId(id)
    ensures r.Some? ==> r.value == DownloadWord(id.value)
  {
    if HasId(id) then Some(DownloadWord(id.value)) else None
  }

  /** A list response shows its first resume; an empty list shows the bare
      heading and the placeholder. */
  lemma ListShowsFirst(first: Value, rest: seq<Value>)
    ensures Heading(Normalize(Arr([first] + rest))) == Heading(first)
    ensures ShowBody(Normalize(Arr([first] + rest))) == ShowBody(first)
  {
  }

  lemma EmptyListShowsPlaceholder()
    ensures Heading(Normalize(Arr([]))) == Str("Resume")
    ensures Subtitle(Normalize(Arr([]))) == Str("")
    ensures ShowBody(Normalize(Arr([]))) == Placeholder
  {
  }

  /** A fulfilled PDF download stores the `{url}` payload as `resumeInfo`,
      so the page that asked for it falls back to the bare heading and the
      placeholder body. */
  lemma PdfDownloadBlanksPage(s: ServiceSlice.ResumeState, url: Value)
    ensures var r := ServiceSlice.Reduce(s, ServiceSlice.Run(ServiceSlice.Pdf, ServiceSlice.Fulfilled(Obj(map["url" := url]))));
            && Heading(Normalize(r.resumeInfo)) == Str("Resume")
            && ShowBody(Normalize(r.resumeInfo)) == Placeholder
  {
    var p := Obj(map["url" := url]);
    assert Get(p, "title") == Undefined;
    assert Get(p, "resume") == Undefined;
  }
}
