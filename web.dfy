/** The request and response shapes of model/web. */
module Web {
  import opened Failures

  datatype CategoryResponse = CategoryResponse(id: int, name: string)

  datatype CategoryCreateRequest = CategoryCreateRequest(name: string)

  datatype CategoryUpdateRequest = CategoryUpdateRequest(id: int, name: string)

  /**
   * A request body after JSON decoding: the `id` and `name` members,
   * each at its zero value when the body leaves it out.
   */
  datatype RequestBody = RequestBody(id: int, name: string)

  /** The `data` member of an envelope. */
  datatype Payload =
    | Absent
    | Category(category: CategoryResponse)
    | Categories(categories: seq<CategoryResponse>)
    | Text(text: string)
    | Raw(failure: Failure)

  /** The uniform envelope `{code, status, data}`. */
  datatype WebResponse = WebResponse(code: int, status: string, data: Payload)

  /** The label the application pairs with each status code it uses. */
  function StatusLabel(code: int): string
  {
    match code
    case 200 => "Ok"
    case 201 => "Created"
    case 400 => "Bad Request"
    case 401 => "Unauthorized"
    case 404 => "Not Found"
    case 500 => "Internal Server Error"
    case _ => ""
  }

  predicate Labelled(env: WebResponse)
  {
    env.status == StatusLabel(env.code)
  }
}
