/**
 * Query-parameter validation for the REST handlers: splitting `attr[name]`
 * parameter names, the error accumulator `QueryParamsValidator`, and the
 * classification of store errors into HTTP responses.
 */
module Validators {
  import opened Wrappers
  import opened Text
  import opened JsonApi

  datatype QueryParamsError = Missing | Invalid

  function Title(error: QueryParamsError): string
  {
    match error
    case Missing => "Missing Required Attribute"
    case Invalid => "Invalid Attribute Value"
  }

  // ----------------------------------------------------------------------
  // Parameter names
  // ----------------------------------------------------------------------

  /**
   * `unbracket`: splits `attr[name]...` at the first `[` and the last `]`.
   * The result names the text before the first `[` and the text strictly
   * between it and the last `]`; whatever follows the last `]` is dropped.
   */
  function Unbracket(name: string): (r: Option<(string, string)>)
    ensures r.Some? ==>
      var (a, b) := r.value;
      var n := |a| + |b| + 2;
      && n <= |name| && name == a + "[" + b + "]" + name[n..]
      && '[' !in a && ']' !in name[n..]
  {
    match FirstIndex(name, '[')
    case None => None
    case Some(open) =>
      match LastIndex(name, ']')
      case None => None
      case Some(close) =>
        if open < close then
          var a, b := name[..open], name[open + 1..close];
          assert name == a + "[" + b + "]" + name[close + 1..];
          Some((a, b))
        else None
  }

  /** A name is bracketed exactly when some `[` comes before some `]`. */
  lemma UnbracketSome(name: string)
    ensures Unbracket(name).Some? <==>
      exists i, j :: 0 <= i < j < |name| && name[i] == '[' && name[j] == ']'
  {
    if exists i, j :: 0 <= i < j < |name| && name[i] == '[' && name[j] == ']' {
      var i, j :| 0 <= i < j < |name| && name[i] == '[' && name[j] == ']';
      var open := FirstIndex(name, '[').value;
      var close := LastIndex(name, ']').value;
      assert forall k :: 0 <= k < open ==> name[..open][k] == name[k];
      assert forall k :: close < k < |name| ==> name[close + 1..][k - close - 1] == name[k];
    }
  }

  /** Composing a bracketed name and splitting it again gives back its parts. */
  lemma UnbracketCompose(a: string, b: string, rest: string)
    requires '[' !in a && ']' !in rest
    ensures Unbracket(a + "[" + b + "]" + rest) == Some((a, b))
  {
    var name := a + "[" + b + "]" + rest;
    var open, close := |a|, |a| + |b| + 1;
    assert name[..open] == a && name[open] == '[';
    assert name[close + 1..] == rest && name[close] == ']';
    assert name[open + 1..close] == b;
    FirstIndexAt(name, '[', open);
    LastIndexAt(name, ']', close);
  }

  /** `name_to_pointer`: the JSON pointer an error about the parameter names. */
  function NameToPointer(name: string): (p: string)
    ensures |p| >= 17 && p[..17] == "/data/attributes/"
  {
    match Unbracket(name)
    case Some((param, inner)) => "/data/attributes/" + param + "/" + inner
    case None => "/data/attributes/" + name
  }

  /** A bracketed name `a[b]...` points at the nested attribute `a/b`. */
  lemma NameToPointerNested(a: string, b: string, rest: string)
    requires '[' !in a && ']' !in rest
    ensures NameToPointer(a + "[" + b + "]" + rest) == "/data/attributes/" + a + "/" + b
  {
    UnbracketCompose(a, b, rest);
  }

  /** A name with no `[` before a `]` points at the attribute of that very name. */
  lemma NameToPointerFlat(name: string)
    requires forall i, j :: 0 <= i < j < |name| && name[i] == '[' ==> name[j] != ']'
    ensures NameToPointer(name) == "/data/attributes/" + name
  {
    UnbracketSome(name);
  }

  // ----------------------------------------------------------------------
  // The error accumulator
  // ----------------------------------------------------------------------

  /** The error object `add_error` pushes: status 400, the title of the kind, and the parameter as source. */
  function ErrorFor(param: string, error: QueryParamsError, detail: Option<string>): ApiError
  {
    ApiError(Some("400"), None, Some(Title(error)), detail,
             Some(ErrorSource(Some(NameToPointer(param)), Some(param))))
  }

  /** The detail of a missing required parameter. */
  function MissingDetail(param: string): string
  {
    "Missing required attribute '" + param + "'."
  }

  /** The detail of a bracketed parameter whose inner name is not among the allowed ones. */
  function NotFoundDetail(param: string, attribute: string): string
  {
    "No required '" + param + "' found among the attributes '" + attribute + "'."
  }

  const PageNumber := "page[number]"
  const PageSize := "page[size]"
  const NegativeNumber := "Page number must be positive."
  const NegativeSize := "Page size must be positive."

  /**
   * What `pagination_parse` returns and the errors it adds: the offset and the
   * size for a page with no negative field, otherwise nothing and one Invalid
   * error per negative field, number first.
   */
  function Pagination(page: Option<PageParams>): (r: (Option<(int, int)>, seq<ApiError>))
    ensures r.0.Some? <==> page.Some? && page.value.number >= 0 && page.value.size >= 0
    ensures r.0.Some? ==> r.0.value == (page.value.number * page.value.size, page.value.size)
    ensures r.0.Some? || page.None? <==> r.1 == []
    ensures page.Some? ==>
      && |r.1| == (if page.value.number < 0 then 1 else 0) + (if page.value.size < 0 then 1 else 0)
      && (page.value.number < 0 ==>
            r.1[0] == ErrorFor(PageNumber, Invalid, Some(NegativeNumber)))
      && (page.value.size < 0 ==>
            r.1[|r.1| - 1] == ErrorFor(PageSize, Invalid, Some(NegativeSize)))
  {
    match page
    case None => (None, [])
    case Some(p) =>
      if p.number >= 0 && p.size >= 0 then (Some((p.number * p.size, p.size)), [])
      else
        (None,
         (if p.number < 0 then [ErrorFor(PageNumber, Invalid, Some(NegativeNumber))] else [])
         + (if p.size < 0 then [ErrorFor(PageSize, Invalid, Some(NegativeSize))] else []))
  }

  class QueryParamsValidator {
    var errors: seq<ApiError>

    constructor ()
      ensures errors == []
    {
      errors := [];
    }

    /** `add_error`: appends exactly one error about the parameter. */
    method AddError(param: string, error: QueryParamsError, detail: Option<string>)
      modifies this
      ensures errors == old(errors) + [ErrorFor(param, error, detail)]
    {
      errors := errors + [ErrorFor(param, error, detail)];
    }

    /** `add_error_if`: appends the error exactly when the condition holds. */
    method AddErrorIf(condition: bool, param: string, error: QueryParamsError, detail: Option<string>)
      modifies this
      ensures errors == old(errors) + (if condition then [ErrorFor(param, error, detail)] else [])
    {
      if condition {
        AddError(param, error, detail);
      }
    }

    /**
     * `verify_existence`: a present parameter is returned and adds no error;
     * an absent one yields `default` (the type's `Default` value) and adds one
     * Missing error when it is required.
     */
    method VerifyExistence<T>(param: Option<T>, required: bool, name: string, default: T) returns (v: T)
      modifies this
      ensures param.Some? ==> v == param.value && errors == old(errors)
      ensures param.None? ==>
        && v == default
        && errors == old(errors) + (if required then [ErrorFor(name, Missing, Some(MissingDetail(name)))] else [])
    {
      match param
      case Some(p) =>
        v := p;
      case None =>
        AddErrorIf(required, name, Missing, Some(MissingDetail(name)));
        v := default;
    }

    /**
     * `check_for_errors`: passes when nothing was collected, otherwise
     * rejects with 400 and an error document of all collected errors; the
     * list is empty afterwards either way, so an immediate second check passes.
     */
    method CheckForErrors() returns (r: Result<(), Response>)
      modifies this
      ensures r.Success? <==> old(errors) == []
      ensures r.Failure? ==> r.error == Response(400, ErrorDoc(old(errors)))
      ensures errors == []
    {
      if errors == [] {
        r := Success(());
      } else {
        r := Failure(Response(400, ErrorDoc(errors)));
        errors := [];
      }
    }

    /** `pagination_parse`: returns and records what `Pagination` says. */
    method PaginationParse(page: Option<PageParams>) returns (r: Option<(int, int)>)
      modifies this
      ensures r == Pagination(page).0
      ensures errors == old(errors) + Pagination(page).1
    {
      match page
      case Some(p) =>
        if p.number >= 0 && p.size >= 0 {
          r := Some((p.number * p.size, p.size));
        } else {
          AddErrorIf(p.number < 0, PageNumber, Invalid, Some(NegativeNumber));
          AddErrorIf(p.size < 0, PageSize, Invalid, Some(NegativeSize));
          r := None;
        }
      case None =>
        r := None;
    }

    /**
     * `vec_stores_param`: for a bracketed `attribute[param]`, returns `param`
     * when the vector holds it, otherwise nothing and one Missing error.
     */
    method VecStoresParam(vector: seq<string>, paramFull: string) returns (r: Option<string>)
      requires Unbracket(paramFull).Some?
      modifies this
      ensures var (attribute, param) := Unbracket(paramFull).value;
        && (param in vector ==> r == Some(param) && errors == old(errors))
        && (param !in vector ==>
              r == None && errors == old(errors) + [ErrorFor(paramFull, Missing, Some(NotFoundDetail(param, attribute)))])
    {
      var (attribute, param) := Unbracket(paramFull).value;
      if param in vector {
        r := Some(param);
      } else {
        AddError(paramFull, Missing, Some(NotFoundDetail(param, attribute)));
        r := None;
      }
    }

    /**
     * `hashmap_stores_param`: for a bracketed `attribute[param]`, returns the
     * vector the map holds under `param`, otherwise nothing and one Missing error.
     */
    method HashmapStoresParam(m: map<string, seq<string>>, paramFull: string) returns (r: Option<seq<string>>)
      requires Unbracket(paramFull).Some?
      modifies this
      ensures var (attribute, param) := Unbracket(paramFull).value;
        && (param in m ==> r == Some(m[param]) && errors == old(errors))
        && (param !in m ==>
              r == None && errors == old(errors) + [ErrorFor(paramFull, Missing, Some(NotFoundDetail(param, attribute)))])
    {
      var (attribute, param) := Unbracket(paramFull).value;
      if param in m {
        r := Some(m[param]);
      } else {
        AddError(paramFull, Missing, Some(NotFoundDetail(param, attribute)));
        r := None;
      }
    }
  }

  // ----------------------------------------------------------------------
  // Store errors
  // ----------------------------------------------------------------------

  /**
   * The store library's error kinds the code distinguishes; every other kind
   * (configuration, I/O, TLS, protocol, worker crash, migration) is `Other`.
   */
  datatype SqlxError =
    | Database(code: Option<string>, message: string)
    | RowNotFound
    | TypeNotFound(typeName: string)
    | ColumnIndexOutOfBounds(index: nat, len: nat)
    | ColumnNotFound(column: string)
    | ColumnDecode(column: string, source: string)
    | Decode(reason: string)
    | PoolTimedOut
    | PoolClosed
    | Other(kind: string)

  predicate IsUnprocessable(e: SqlxError)
  {
    e.TypeNotFound? || e.ColumnIndexOutOfBounds? || e.ColumnNotFound? || e.ColumnDecode? || e.Decode?
  }

  /** `create_error_doc`: an error document with one error of the given status, title and detail. */
  function ErrorDocument(status: string, title: string, detail: string): Document
  {
    ErrorDoc([ApiError(Some(status), None, Some(title), Some(detail), None)])
  }

  /**
   * `sqlx_error_parse`. `display` is the library's own text for the error,
   * used for the kinds whose detail is that text. A database error must
   * carry a code (the source unwraps it).
   */
  function SqlxErrorParse(e: SqlxError, display: string): (r: Response)
    requires e.Database? ==> e.code.Some?
    ensures r.status == 404 <==> e.RowNotFound?
    ensures r.status == 422 <==> IsUnprocessable(e)
    ensures r.status == 503 <==> e.PoolTimedOut? || e.PoolClosed?
    ensures r.status == 500 <==> e.Database? || e.Other?
    ensures r.body.ErrorDoc? && |r.body.errors| == 1
    ensures r.status == 404 ==> r.body.errors[0].status == Some("404")
    ensures r.status == 422 ==> r.body.errors[0].status == Some("422")
    ensures r.status == 503 ==> r.body.errors[0].status == Some("503")
    ensures r.status == 500 ==> r.body.errors[0].status == Some("500")
    ensures e.Database? ==> r.body.errors[0] == ApiError(Some("500"), e.code, Some("Database Error"), Some(e.message), None)
    ensures e.Other? ==> r.body.errors[0] == ApiError(Some("500"), None, None, Some(display), None)
  {
    match e
    case Database(code, message) =>
      Response(500, ErrorDoc([ApiError(Some("500"), Some(code.value), Some("Database Error"), Some(message), None)]))
    case RowNotFound => Response(404, ErrorDocument("404", "Row Not Found", display))
    case TypeNotFound(typeName) =>
      Response(422, ErrorDocument("422", "Type Not Found", "Type '" + typeName + "' in query doesn't exist."))
    case ColumnIndexOutOfBounds(index, len) =>
      Response(422, ErrorDocument("422", "Column Index Out Of Bounds",
        "Column index (" + NatToString(index) + ") is out of bounds (length: " + NatToString(len) + ")."))
    case ColumnNotFound(column) =>
      Response(422, ErrorDocument("422", "Column Not Found", "No column found for the given name '" + column + "'."))
    case ColumnDecode(_, source) => Response(422, ErrorDocument("422", "Column Decode Error", source))
    case Decode(reason) => Response(422, ErrorDocument("422", "Decode Error", reason))
    case PoolTimedOut => Response(503, ErrorDocument("503", "Pool Timed Out", display))
    case PoolClosed => Response(503, ErrorDocument("503", "Pool Closed", display))
    case Other(_) => Response(500, ErrorDoc([ApiError(Some("500"), None, None, Some(display), None)]))
  }

  /** `validate_sqlx_response`: a value passes through unchanged, an error becomes its response. */
  function ValidateSqlxResponse<T>(response: Result<T, SqlxError>, display: string): (r: Result<T, Response>)
    requires response.Failure? && response.error.Database? ==> response.error.code.Some?
    ensures r.Success? <==> response.Success?
    ensures r.Success? ==> r.value == response.value
    ensures r.Failure? ==> r.error == SqlxErrorParse(response.error, display)
    ensures r.Failure? ==> r.error.status in {404, 422, 500, 503}
  {
    match response
    case Success(value) => Success(value)
    case Failure(error) => Failure(SqlxErrorParse(error, display))
  }
}
