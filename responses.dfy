/** The uniform JSON envelopes every endpoint answers with: success,
    error, paginated, and the fixed-status shorthands built on them. */
module Responses {
  import opened Common

  const StatusOK: int := 200
  const StatusCreated: int := 201
  const StatusNoContent: int := 204
  const StatusBadRequest: int := 400
  const StatusUnauthorized: int := 401
  const StatusForbidden: int := 403
  const StatusNotFound: int := 404

  /** Status code used when a caller of SuccessResponse passes none. */
  const SuccessDefaultStatus: int := StatusOK
  /** Status code used when a caller of ErrorResponse passes none. */
  const ErrorDefaultStatus: int := StatusBadRequest

  const NotFoundDefaultMessage: string := "リソースが見つかりません"
  const UnauthorizedDefaultMessage: string := "認証が必要です"
  const ForbiddenDefaultMessage: string := "アクセスが拒否されました"

  const UnauthorizedCode: string := "UNAUTHORIZED"
  const ForbiddenCode: string := "FORBIDDEN"

  /** An HTTP response with a JSON body. */
  datatype JsonResponse = JsonResponse(statusCode: int, content: Json)

  datatype PageInfo = PageInfo(
    total: int, page: int, pageSize: int, totalPages: int, hasNext: bool, hasPrev: bool)

  /** What a client reads out of a response body. */
  datatype Envelope =
    | SuccessBody(data: Json, message: Option<string>)
    | ErrorBody(code: string, errorMessage: string, field: Option<string>)
    | PageBody(items: seq<Json>, info: PageInfo)

  /** Reads an optional non-empty string stored under `key`; an absent key is None. */
  function ReadOptionalString(f: map<string, Json>, key: string): Option<Option<string>>
  {
    if key !in f then Some(None)
    else if f[key].JStr? && f[key].s != "" then Some(Some(f[key].s))
    else None
  }

  function ReadErrorDetail(e: Json): Option<Envelope>
  {
    if !e.JObj? then None
    else
      var f := e.fields;
      if !(f.Keys == {"code", "message"} || f.Keys == {"code", "message", "field"}) then None
      else if !f["code"].JStr? || !f["message"].JStr? then None
      else match ReadOptionalString(f, "field")
        case None => None
        case Some(field) => Some(ErrorBody(f["code"].s, f["message"].s, field))
  }

  function ReadPageInfo(p: Json): Option<PageInfo>
  {
    if !p.JObj? then None
    else
      var f := p.fields;
      if f.Keys != {"total", "page", "page_size", "total_pages", "has_next", "has_prev"} then None
      else if !(f["total"].JInt? && f["page"].JInt? && f["page_size"].JInt? && f["total_pages"].JInt?
                && f["has_next"].JBool? && f["has_prev"].JBool?) then None
      else Some(PageInfo(f["total"].i, f["page"].i, f["page_size"].i, f["total_pages"].i,
                         f["has_next"].b, f["has_prev"].b))
  }

  /** The reader a client applies to a response body: it accepts exactly the
      key sets the builders produce and nothing else. */
  function ReadEnvelope(body: Json): Option<Envelope>
  {
    if !body.JObj? then None
    else
      var f := body.fields;
      if "success" !in f || !f["success"].JBool? then None
      else if f["success"].b then
        if "data" !in f then None
        else if "pagination" in f then
          if f.Keys != {"success", "data", "pagination"} || !f["data"].JArr? then None
          else match ReadPageInfo(f["pagination"])
            case None => None
            case Some(info) => Some(PageBody(f["data"].items, info))
        else if !(f.Keys == {"success", "data"} || f.Keys == {"success", "data", "message"}) then None
        else match ReadOptionalString(f, "message")
          case None => None
          case Some(message) => Some(SuccessBody(f["data"], message))
      else if f.Keys != {"success", "error"} then None
      else ReadErrorDetail(f["error"])
  }

  /** Drops an optional string that Python would treat as absent. */
  function KeepTruthy(s: Option<string>): (r: Option<string>)
    ensures r.Some? <==> Truthy(s)
    ensures r.Some? ==> r == s
  {
    if Truthy(s) then s else None
  }

  /** A success envelope; the "message" key appears only for a non-empty message. */
  method SuccessResponse(data: Json, message: Option<string> := None, statusCode: int := SuccessDefaultStatus) returns (r: JsonResponse)
    ensures r.statusCode == statusCode
    ensures r.content.JObj? && ("message" in r.content.fields <==> Truthy(message))
    ensures ReadEnvelope(r.content) == Some(SuccessBody(data, KeepTruthy(message)))
  {
    var responseData := map["success" := JBool(true), "data" := data];
    if Truthy(message) {
      responseData := responseData["message" := JStr(message.value)];
    }
    r := JsonResponse(statusCode, JObj(responseData));
  }

  /** An error envelope; the "field" key appears only for a non-empty field name. */
  method ErrorResponse(code: string, message: string, statusCode: int := ErrorDefaultStatus,
                       field: Option<string> := None)
    returns (r: JsonResponse)
    ensures r.statusCode == statusCode
    ensures r.content.JObj? && "error" in r.content.fields && r.content.fields["error"].JObj?
    ensures "field" in r.content.fields["error"].fields <==> Truthy(field)
    ensures ReadEnvelope(r.content) == Some(ErrorBody(code, message, KeepTruthy(field)))
  {
    var errorDetail := map["code" := JStr(code), "message" := JStr(message)];
    if Truthy(field) {
      errorDetail := errorDetail["field" := JStr(field.value)];
    }
    r := JsonResponse(statusCode, JObj(map["success" := JBool(false), "error" := JObj(errorDetail)]));
  }

  /** Number of pages needed for `total` items: the ceiling of total / page_size. */
  function TotalPages(total: nat, pageSize: int): (r: nat)
    requires pageSize >= 1
    ensures total == 0 ==> r == 0
    ensures total > 0 ==> (r - 1) * pageSize < total <= r * pageSize
  {
    var r := (total + pageSize - 1) / pageSize;
    CeilingDivision(total, pageSize, r);
    r
  }

  lemma CeilingDivision(total: nat, n: int, r: int)
    requires n >= 1 && r == (total + n - 1) / n
    ensures r >= 0
    ensures total == 0 ==> r == 0
    ensures total > 0 ==> (r - 1) * n < total <= r * n
  {
    var m := (total + n - 1) % n;
    assert total + n - 1 == r * n + m;
    assert (r - 1) * n == r * n - n;
  }

  function PageInfoJson(info: PageInfo): Json
  {
    JObj(map[
      "total" := JInt(info.total),
      "page" := JInt(info.page),
      "page_size" := JInt(info.pageSize),
      "total_pages" := JInt(info.totalPages),
      "has_next" := JBool(info.hasNext),
      "has_prev" := JBool(info.hasPrev)])
  }

  /** The pagination facts for a page of a result with `total` items. */
  function Paging(total: nat, page: int, pageSize: int): (info: PageInfo)
    requires pageSize >= 1
    ensures info.totalPages == TotalPages(total, pageSize)
    ensures info.hasNext <==> page < info.totalPages
    ensures info.hasPrev <==> page > 1
    ensures info.total == total && info.page == page && info.pageSize == pageSize
  {
    var totalPages := TotalPages(total, pageSize);
    PageInfo(total, page, pageSize, totalPages, page < totalPages, page > 1)
  }

  /** A success envelope with the page's items and its pagination facts. */
  function PaginatedResponse(data: seq<Json>, total: nat, page: int, pageSize: int,
                             statusCode: int := StatusOK)
    : (r: JsonResponse)
    requires pageSize >= 1
    ensures r.statusCode == statusCode
    ensures ReadEnvelope(r.content) == Some(PageBody(data, Paging(total, page, pageSize)))
  {
    var info := Paging(total, page, pageSize);
    var body := map["success" := JBool(true), "data" := JArr(data), "pagination" := PageInfoJson(info)];
    assert body.Keys == {"success", "data", "pagination"};
    JsonResponse(statusCode, JObj(body))
  }

  lemma MulMonotone(a: int, b: int, n: int)
    requires a <= b && n >= 0
    ensures a * n <= b * n
  {
    assert b * n - a * n == (b - a) * n;
  }

  /** For a page number of at least 1, there is a next page exactly when items
      remain beyond this page's window, and a previous one exactly when this is
      not the first page, i.e. the window does not start at 0. */
  lemma {:induction false} HasNextIffItemsRemain(total: nat, page: int, pageSize: int)
    requires pageSize >= 1 && page >= 1
    ensures Paging(total, page, pageSize).hasNext <==> page * pageSize < total
    ensures Paging(total, page, pageSize).hasPrev <==> (page - 1) * pageSize > 0
  {
    var tp := TotalPages(total, pageSize);
    if page < tp {
      MulMonotone(page, tp - 1, pageSize);
    } else {
      MulMonotone(tp, page, pageSize);
      MulMonotone(1, page, pageSize);
    }
    MulMonotone(0, page - 1, pageSize);
    if page > 1 {
      MulMonotone(1, page - 1, pageSize);
    }
  }

  /** ASCII upper-casing of one character; other characters are kept. */
  function UpperChar(c: char): char
  {
    if 'a' <= c <= 'z' then (c as int - 32) as char else c
  }

  /** Upper-cases the ASCII letters of `s`. */
  function Upper(s: string): (r: string)
    ensures |r| == |s|
    ensures forall i :: 0 <= i < |s| ==> r[i] == UpperChar(s[i])
    ensures forall i :: 0 <= i < |r| ==> !('a' <= r[i] <= 'z')
  {
    seq(|s|, i requires 0 <= i < |s| => UpperChar(s[i]))
  }

  /** The error code of a 404 envelope: "<RESOURCE>_NOT_FOUND" for a named
      resource, plain "NOT_FOUND" otherwise. */
  function NotFoundCode(resource: Option<string>): (r: string)
    ensures |r| >= 9 && r[|r| - 9..] == "NOT_FOUND"
    ensures !Truthy(resource) ==> r == "NOT_FOUND"
    ensures Truthy(resource) ==>
      var n := |resource.value|;
      |r| == n + 10 && r[..n] == Upper(resource.value) && r[n] == '_'
  {
    if Truthy(resource) then Upper(resource.value) + "_NOT_FOUND" else "NOT_FOUND"
  }

  /** An empty 204 response: its body is JSON null, which no client reads
      as an envelope. */
  method NoContentResponse() returns (r: JsonResponse)
    ensures r.statusCode == StatusNoContent
    ensures r.content == JNull && ReadEnvelope(r.content) == None
  {
    r := JsonResponse(StatusNoContent, JNull);
  }

  /** A 404 error envelope. */
  method NotFoundResponse(message: string := NotFoundDefaultMessage, resource: Option<string> := None) returns (r: JsonResponse)
    ensures r.statusCode == StatusNotFound
    ensures ReadEnvelope(r.content) == Some(ErrorBody(NotFoundCode(resource), message, None))
  {
    var code := NotFoundCode(resource);
    r := ErrorResponse(code, message, StatusNotFound);
  }

  /** A success envelope with status 201. */
  method CreatedResponse(data: Json, message: Option<string> := None) returns (r: JsonResponse)
    ensures r.statusCode == StatusCreated
    ensures ReadEnvelope(r.content) == Some(SuccessBody(data, KeepTruthy(message)))
  {
    r := SuccessResponse(data, message, StatusCreated);
  }

  /** A 401 error envelope with the fixed code UNAUTHORIZED. */
  method UnauthorizedResponse(message: string := UnauthorizedDefaultMessage) returns (r: JsonResponse)
    ensures r.statusCode == StatusUnauthorized
    ensures ReadEnvelope(r.content) == Some(ErrorBody(UnauthorizedCode, message, None))
  {
    r := ErrorResponse(UnauthorizedCode, message, StatusUnauthorized);
  }

  /** A 403 error envelope with the fixed code FORBIDDEN. */
  method ForbiddenResponse(message: string := ForbiddenDefaultMessage) returns (r: JsonResponse)
    ensures r.statusCode == StatusForbidden
    ensures ReadEnvelope(r.content) == Some(ErrorBody(ForbiddenCode, message, None))
  {
    r := ErrorResponse(ForbiddenCode, message, StatusForbidden);
  }
}
