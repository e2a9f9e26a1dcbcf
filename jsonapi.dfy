/**
 * The JSON:API document shapes the REST layer exchanges: resources, primary
 * data, error objects and documents, plus the HTTP responses built from
 * them. Only the fields the modelled code reads or writes are kept.
 */
module JsonApi {
  import opened Wrappers

  /** A JSON value as the code produces it: `json!` of a string or of an integer. */
  datatype Value = Str(text: string) | Num(number: int)

  /** The `page[number]` and `page[size]` query parameters. */
  datatype PageParams = PageParams(number: int, size: int)

  /** A resource object; `(id, rtype)` identifies it. */
  datatype Resource = Resource(id: string, rtype: string, attributes: map<string, Value>)

  /** The `data` member of a data document (`PrimaryData`). */
  datatype PrimaryData = NoData | Single(resource: Resource) | Multiple(resources: seq<Resource>)

  datatype ErrorSource = ErrorSource(pointer: Option<string>, parameter: Option<string>)

  /** An error object; the members the code never sets are left out. */
  datatype ApiError = ApiError(
    status: Option<string>,
    code: Option<string>,
    title: Option<string>,
    detail: Option<string>,
    source: Option<ErrorSource>)

  datatype Document =
    | DataDoc(data: Option<PrimaryData>, included: Option<seq<Resource>>,
              meta: Option<map<string, Value>>, links: Option<map<string, Value>>)
    | ErrorDoc(errors: seq<ApiError>)

  /** What the library's document validation can report. */
  datatype ValidationError = IncludedWithoutData | MissingContent

  /** An HTTP response: the status code and the JSON body. */
  datatype Response = Response(status: int, body: Document)
}
