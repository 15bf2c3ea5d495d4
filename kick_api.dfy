/** Classification of the HTTP responses of the channel and viewer lookups
    into result records. The HTTP request itself is an input. */
module KickApi {
  import opened PyValues

  /** `ApiResult`; `data` is the decoded body or a viewer count. */
  datatype ApiResult = ApiResult(success: bool, data: Option<Json>, error: Option<string>, statusCode: Option<int>)

  /** What `response.json()` does with the body: it returns the decoded value,
      or raises a decode error whose text is `message`. */
  datatype Body = Decoded(value: Json) | Undecodable(message: string)

  datatype Response = Response(statusCode: int, body: Body)

  /** How the HTTP call ended: a timeout, a response, or another client error
      (which the lookup does not catch). */
  datatype Transport = TimedOut | Responded(response: Response) | TransportFailed

  function Failure(error: string, statusCode: Option<int>): ApiResult {
    ApiResult(false, None, Some(error), statusCode)
  }

  const INVALID_JSON_PREFIX: string := "Invalid JSON response: "
  const UNEXPECTED_STATUS_PREFIX: string := "Unexpected status code: "

  /** `_handle_channel_response`. */
  function HandleChannelResponse(response: Response, channelName: string): ApiResult {
    if response.statusCode == 200 then
      match response.body
      case Decoded(v) => ApiResult(true, Some(v), None, Some(200))
      case Undecodable(e) => Failure(INVALID_JSON_PREFIX + e, Some(response.statusCode))
    else if response.statusCode == 403 then
      Failure("Request blocked by Cloudflare", Some(403))
    else if response.statusCode == 404 then
      Failure("Channel '" + channelName + "' not found", Some(404))
    else
      Failure(UNEXPECTED_STATUS_PREFIX + IntToString(response.statusCode), Some(response.statusCode))
  }

  function LivestreamNotFound(livestreamId: int, statusCode: int): ApiResult {
    Failure("Livestream " + IntToString(livestreamId) + " not found", Some(statusCode))
  }

  /** `_handle_viewers_response`. Of the errors raised while reading the body,
      decode errors, `IndexError` and `KeyError` become failures; indexing a
      dict by 0 raises `KeyError(0)`, whose text is "0". The others escape:
      `len` of a number or bool raises `TypeError`, and `.get` on a first
      element that is not a dict raises `AttributeError`. */
  function HandleViewersResponse(response: Response, livestreamId: int): Outcome<ApiResult> {
    if response.statusCode == 200 then
      match response.body
      case Undecodable(e) => Returned(Failure(INVALID_JSON_PREFIX + e, Some(200)))
      case Decoded(v) =>
        if !Truthy(v) then Returned(LivestreamNotFound(livestreamId, 200))
        else
          match v
          case JInt(_) => Raised(TypeError)
          case JBool(_) => Raised(TypeError)
          case JObj(_) => Returned(Failure(INVALID_JSON_PREFIX + "0", Some(200)))
          case JStr(_) => Raised(AttributeError)
          case JList(items) =>
            var viewers :- GetOr(items[0], "viewers", JInt(0));
            Returned(ApiResult(true, Some(viewers), None, Some(200)))
          case JNull => Returned(LivestreamNotFound(livestreamId, 200))
    else if response.statusCode == 403 then
      Returned(Failure("Request blocked by Cloudflare", Some(403)))
    else if response.statusCode == 404 then
      Returned(LivestreamNotFound(livestreamId, 404))
    else
      Returned(Failure(UNEXPECTED_STATUS_PREFIX + IntToString(response.statusCode), Some(response.statusCode)))
  }

  /** `get_channel_info`: a timeout is a failure without a status code; any
      other client error propagates. */
  function GetChannelInfo(channelName: string, transport: Transport): Outcome<ApiResult> {
    match transport
    case TimedOut => Returned(Failure("Request timed out", None))
    case Responded(response) => Returned(HandleChannelResponse(response, channelName))
    case TransportFailed => Raised(RequestError)
  }

  // ---------------------------------------------------------------------------
  // Properties.

  /** Success exactly for a 200 whose body decodes, and then the data is the
      decoded body; every failure carries an error; the status is always
      passed through. */
  lemma ChannelResponseSuccessIff(response: Response, channelName: string)
    ensures var r := HandleChannelResponse(response, channelName);
            (r.success <==> response.statusCode == 200 && response.body.Decoded?)
            && (r.success ==> r.data == Some(response.body.value) && r.error.None?)
            && (!r.success ==> r.error.Some? && r.data.None?)
            && r.statusCode == Some(response.statusCode)
  {
  }

  /** The error text of each failing branch. */
  lemma ChannelResponseMessages(response: Response, channelName: string)
    ensures var r := HandleChannelResponse(response, channelName);
            (response.statusCode == 200 && response.body.Undecodable? ==>
               r.error == Some(INVALID_JSON_PREFIX + response.body.message))
            && (response.statusCode == 403 ==> r.error == Some("Request blocked by Cloudflare"))
            && (response.statusCode == 404 ==> r.error == Some("Channel '" + channelName + "' not found"))
            && (response.statusCode !in {200, 403, 404} ==>
                  r.error == Some(UNEXPECTED_STATUS_PREFIX + IntToString(response.statusCode)))
  {
  }

  /** The status code of an unexpected response can be read back from its
      error text. */
  lemma UnexpectedStatusRecoverable(response: Response, channelName: string)
    requires response.statusCode !in {200, 403, 404}
    ensures var e := HandleChannelResponse(response, channelName).error.value;
            e[..|UNEXPECTED_STATUS_PREFIX|] == UNEXPECTED_STATUS_PREFIX
            && ParseInt(e[|UNEXPECTED_STATUS_PREFIX|..]) == response.statusCode
  {
    var e := HandleChannelResponse(response, channelName).error.value;
    assert e[|UNEXPECTED_STATUS_PREFIX|..] == IntToString(response.statusCode);
    IntToStringRoundTrip(response.statusCode);
  }

  /** Viewer lookup: a 200 with a non-empty list whose first element is a dict
      yields that element's "viewers" (default 0); a 200 with an empty list,
      or nothing, is "not found" with status 200. */
  lemma ViewersResponseShapes(response: Response, livestreamId: int)
    ensures var r := HandleViewersResponse(response, livestreamId);
            (response.statusCode == 200 && response.body.Decoded? && response.body.value.JList?
               && response.body.value.items != [] && response.body.value.items[0].JObj? ==>
               var first := response.body.value.items[0];
               r == Returned(ApiResult(true,
                                       Some(if "viewers" in first.fields then first.fields["viewers"] else JInt(0)),
                                       None, Some(200))))
            && (response.statusCode == 200 && response.body.Decoded? && !Truthy(response.body.value) ==>
                  r == Returned(Failure("Livestream " + IntToString(livestreamId) + " not found", Some(200))))
            && (response.statusCode == 404 ==>
                  r == Returned(Failure("Livestream " + IntToString(livestreamId) + " not found", Some(404))))
  {
  }

  /** When the viewer lookup returns a record, it succeeds exactly for a 200
      whose body is a non-empty list, and every failure carries an error. */
  lemma ViewersResponseSuccessIff(response: Response, livestreamId: int)
    ensures var r := HandleViewersResponse(response, livestreamId);
            r.Returned? ==>
              (r.value.success <==> response.statusCode == 200 && response.body.Decoded?
                                    && response.body.value.JList? && response.body.value.items != [])
              && (!r.value.success ==> r.value.error.Some?)
              && r.value.statusCode.Some?
  {
  }

  /** A timeout gives "Request timed out" with no status code. */
  lemma TimeoutResult(channelName: string)
    ensures GetChannelInfo(channelName, TimedOut) ==
            Returned(ApiResult(false, None, Some("Request timed out"), None))
  {
  }
}
