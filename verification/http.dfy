/** The JSON responses the API routes send: a status code and a body `{ ok, error? }`. */
module Http {
  import opened Common

  datatype Response = Response(status: int, ok: bool, error: Option<string>)

  /** `NextResponse.json({ ok: true })`, status 200. */
  const Success: Response := Response(200, true, None)

  /** `NextResponse.json({ ok: false, error }, { status })`. */
  function Failure(status: int, error: string): Response {
    Response(status, false, Some(error))
  }

  /** Every catch block of the routes answers this. */
  const ServerError: Response := Response(500, false, Some("Server error"))
}
