/** The catalogue of HTTP status codes of RFC 9110 section 15: one named
    constant per registered code, a table of reason phrases, a table of
    one-sentence descriptions, and the five status classes as ranges. Every
    member is a total function: an unknown code is answered with the empty
    string, an out-of-range code belongs to no class. */
module HttpStatus {

  import opened Wrappers
  import Decimal

  // Registered status codes.
  const Continue: int := 100
  const SwitchingProtocols: int := 101
  const Ok: int := 200
  const Created: int := 201
  const Accepted: int := 202
  const NonAuthoritativeInformation: int := 203
  const NoContent: int := 204
  const ResetContent: int := 205
  const PartialContent: int := 206
  const MultipleChoices: int := 300
  const MovedPermanently: int := 301
  const Found: int := 302
  const SeeOther: int := 303
  const NotModified: int := 304
  const UseProxy: int := 305
  const TemporaryRedirect: int := 307
  const PermanentRedirect: int := 308
  const BadRequest: int := 400
  const Unauthorized: int := 401
  const PaymentRequired: int := 402
  const Forbidden: int := 403
  const NotFound: int := 404
  const MethodNotAllowed: int := 405
  const NotAcceptable: int := 406
  const ProxyAuthenticationRequired: int := 407
  const RequestTimeout: int := 408
  const Conflict: int := 409
  const Gone: int := 410
  const LengthRequired: int := 411
  const PreconditionFailed: int := 412
  const ContentTooLarge: int := 413
  const PayloadTooLarge: int := 413  // deprecated RFC 7231 name of 413
  const UriTooLong: int := 414
  const UnsupportedMediaType: int := 415
  const RangeNotSatisfiable: int := 416
  const ExpectationFailed: int := 417
  const MisdirectedRequest: int := 421
  const UnprocessableContent: int := 422
  const UpgradeRequired: int := 426
  const InternalServerError: int := 500
  const NotImplemented: int := 501
  const BadGateway: int := 502
  const ServiceUnavailable: int := 503
  const GatewayTimeout: int := 504
  const HttpVersionNotSupported: int := 505

  /** The reason-phrase table, entry by entry: the phrase listed for
      `status`, or None when the table has no entry for it. */
  function ReasonEntry(status: int): (r: Option<string>)
    ensures r.Some? ==> 100 <= status < 600 && r.value != ""
  {
    match status
    case Continue => Some("Continue")
    case SwitchingProtocols => Some("Switching Protocols")
    case Ok => Some("OK")
    case Created => Some("Created")
    case Accepted => Some("Accepted")
    case NonAuthoritativeInformation => Some("Non-Authoritative Information")
    case NoContent => Some("No Content")
    case ResetContent => Some("Reset Content")
    case PartialContent => Some("Partial Content")
    case MultipleChoices => Some("Multiple Choices")
    case MovedPermanently => Some("Moved Permanently")
    case Found => Some("Found")
    case SeeOther => Some("See Other")
    case NotModified => Some("Not Modified")
    case UseProxy => Some("Use Proxy")
    case TemporaryRedirect => Some("Temporary Redirect")
    case PermanentRedirect => Some("Permanent Redirect")
    case BadRequest => Some("Bad Request")
    case Unauthorized => Some("Unauthorized")
    case PaymentRequired => Some("Payment Required")
    case Forbidden => Some("Forbidden")
    case NotFound => Some("Not Found")
    case MethodNotAllowed => Some("Method Not Allowed")
    case NotAcceptable => Some("Not Acceptable")
    case ProxyAuthenticationRequired => Some("Proxy Authentication Required")
    case RequestTimeout => Some("Request Timeout")
    case Conflict => Some("Conflict")
    case Gone => Some("Gone")
    case LengthRequired => Some("Length Required")
    case PreconditionFailed => Some("Precondition Failed")
    case ContentTooLarge => Some("Content Too Large")
    case UriTooLong => Some("URI Too Long")
    case UnsupportedMediaType => Some("Unsupported Media Type")
    case RangeNotSatisfiable => Some("Range Not Satisfiable")
    case ExpectationFailed => Some("Expectation Failed")
    case MisdirectedRequest => Some("Misdirected Request")
    case UnprocessableContent => Some("Unprocessable Content")
    case UpgradeRequired => Some("Upgrade Required")
    case InternalServerError => Some("Internal Server Error")
    case NotImplemented => Some("Not Implemented")
    case BadGateway => Some("Bad Gateway")
    case ServiceUnavailable => Some("Service Unavailable")
    case GatewayTimeout => Some("Gateway Timeout")
    case HttpVersionNotSupported => Some("HTTP Version Not Supported")
    case _ => None
  }

  /** The description table, entry by entry. */
  function DescriptionEntry(status: int): (r: Option<string>)
    ensures r.Some? ==> 100 <= status < 600 && r.value != ""
  {
    match status
    case Continue => Some(ContinueDescription)
    case SwitchingProtocols => Some(SwitchingProtocolsDescription)
    case Ok => Some(OkDescription)
    case Created => Some(CreatedDescription)
    case Accepted => Some(AcceptedDescription)
    case NonAuthoritativeInformation => Some(NonAuthoritativeInformationDescription)
    case NoContent => Some(NoContentDescription)
    case ResetContent => Some(ResetContentDescription)
    case PartialContent => Some(PartialContentDescription)
    case MultipleChoices => Some(MultipleChoicesDescription)
    case MovedPermanently => Some(MovedPermanentlyDescription)
    case Found => Some(FoundDescription)
    case SeeOther => Some(SeeOtherDescription)
    case NotModified => Some(NotModifiedDescription)
    case UseProxy => Some(UseProxyDescription)
    case TemporaryRedirect => Some(TemporaryRedirectDescription)
    case PermanentRedirect => Some(PermanentRedirectDescription)
    case BadRequest => Some(BadRequestDescription)
    case Unauthorized => Some(UnauthorizedDescription)
    case PaymentRequired => Some(PaymentRequiredDescription)
    case Forbidden => Some(ForbiddenDescription)
    case NotFound => Some(NotFoundDescription)
    case MethodNotAllowed => Some(MethodNotAllowedDescription)
    case NotAcceptable => Some(NotAcceptableDescription)
    case ProxyAuthenticationRequired => Some(ProxyAuthenticationRequiredDescription)
    case RequestTimeout => Some(RequestTimeoutDescription)
    case Conflict => Some(ConflictDescription)
    case Gone => Some(GoneDescription)
    case LengthRequired => Some(LengthRequiredDescription)
    case PreconditionFailed => Some(PreconditionFailedDescription)
    case ContentTooLarge => Some(ContentTooLargeDescription)
    case UriTooLong => Some(UriTooLongDescription)
    case UnsupportedMediaType => Some(UnsupportedMediaTypeDescription)
    case RangeNotSatisfiable => Some(RangeNotSatisfiableDescription)
    case ExpectationFailed => Some(ExpectationFailedDescription)
    case MisdirectedRequest => Some(MisdirectedRequestDescription)
    case UnprocessableContent => Some(UnprocessableContentDescription)
    case UpgradeRequired => Some(UpgradeRequiredDescription)
    case InternalServerError => Some(InternalServerErrorDescription)
    case NotImplemented => Some(NotImplementedDescription)
    case BadGateway => Some(BadGatewayDescription)
    case ServiceUnavailable => Some(ServiceUnavailableDescription)
    case GatewayTimeout => Some(GatewayTimeoutDescription)
    case HttpVersionNotSupported => Some(HttpVersionNotSupportedDescription)
    case _ => None
  }

  /** The reason-phrase table as a map. Status codes have three digits, so
      [0, 1000) bounds the domain without excluding any entry. */
  const Reasons: map<int, string> :=
    map c | 0 <= c < 1000 && ReasonEntry(c).Some? :: ReasonEntry(c).value

  /** The description table as a map. */
  const Descriptions: map<int, string> :=
    map c | 0 <= c < 1000 && DescriptionEntry(c).Some? :: DescriptionEntry(c).value

  // Description texts, one constant per listed code.
  const ContinueDescription: string :=
    "The initial part of a request has been received and has not yet been rejected by the server."
  const SwitchingProtocolsDescription: string :=
    "The server understands and is willing to comply with the client's request, via the \"Upgrade\" header field, for a change in the application protocol being used on this connection."
  const OkDescription: string :=
    "The request has succeeded."
  const CreatedDescription: string :=
    "The request has been fulfilled and has resulted in one or more new resources being created."
  const AcceptedDescription: string :=
    "The request has been accepted for processing, but the processing has not been completed."
  const NonAuthoritativeInformationDescription: string :=
    "The request was successful but the enclosed content has been modified from that of the origin server's successfull response by a transforming proxy."
  const NoContentDescription: string :=
    "The server has successfully fulfilled the request and there is no additional content to send in the response content."
  const ResetContentDescription: string :=
    "The server has fulfilled the request and desires that the user agent reset the \"document view\", which caused the request to be sent, to its original state as received from the origin server."
  const PartialContentDescription: string :=
    "The server is successfully fulfilling a range request for the target resource by transferring one or more parts of the selected representation."
  const MultipleChoicesDescription: string :=
    "The target resource has more than one representation, each with its own more specific identifier, and information about the alternatives is being provided."
  const MovedPermanentlyDescription: string :=
    "The target resource has been assigned a new permanent URI and any future references to this resource ought to use one of the enclosed URIs."
  const FoundDescription: string :=
    "The target resource resides temporarily under a different URI."
  const SeeOtherDescription: string :=
    "The server is redirecting the user agent to a different resource, which is intended to provide an indirect response to the original request."
  const NotModifiedDescription: string :=
    "There is no need for the server to transfer a representation of the target resource because the request indicates that the client already has a valid representation."
  const UseProxyDescription: string :=
    "The requested resource is available only through a proxy."
  const TemporaryRedirectDescription: string :=
    "The target resource resides temporarily under a different URI and the user agent MUST NOT change the request method."
  const PermanentRedirectDescription: string :=
    "The target resource has been assigned a new permanent URI and any future references to this resource ought to use one of the enclosed URIs."
  const BadRequestDescription: string :=
    "The server cannot or will not process the request due to something that is perceived to be a client error."
  const UnauthorizedDescription: string :=
    "The request has not been applied because it lacks valid authentication credentials for the target resource."
  const PaymentRequiredDescription: string :=
    "Payment required."
  const ForbiddenDescription: string :=
    "The server understood the request but refuses to fulfill it."
  const NotFoundDescription: string :=
    "The origin server did not find a current representation for the target resource or is not willing to disclose that one exists."
  const MethodNotAllowedDescription: string :=
    "The method received in the request-line is known by the origin server but not supported by the target resource."
  const NotAcceptableDescription: string :=
    "The target resource does not have a current representation that would be acceptable to the user agent."
  const ProxyAuthenticationRequiredDescription: string :=
    "The request has not been applied because it lacks valid authentication credentials for the target resource. The client needs to authenticate itself in order to use a proxy for this request."
  const RequestTimeoutDescription: string :=
    "The server did not receive a complete request message within the time that it was prepared to wait."
  const ConflictDescription: string :=
    "The request could not be completed due to a conflict with the current state of the target resource."
  const GoneDescription: string :=
    "Access to the target resource is no longer available at the origin server and this condition is likely to be permanent."
  const LengthRequiredDescription: string :=
    "The server refuses to accept the request without a defined \"Content-Length\" header field."
  const PreconditionFailedDescription: string :=
    "One or more conditions given in the request header fields evaluated to false when tested on the server."
  const ContentTooLargeDescription: string :=
    "The server is refusing to process a request because the request content is larger than the server is willing or able to process."
  const UriTooLongDescription: string :=
    "The server is refusing to service the request because the target URI is longer than the server is willing to interpret."
  const UnsupportedMediaTypeDescription: string :=
    "The origin server is refusing to service the request because the content is in a format not supported by this method on the target resource."
  const RangeNotSatisfiableDescription: string :=
    "The set of ranges in the request's \"Range\" header field has been rejected either because none of the requested ranges are satisfiable or because the client has requested an excessive number of small or overlapping ranges."
  const ExpectationFailedDescription: string :=
    "The expectation given in the request's \"Expect\" header field could not be met by at least one of the inbound servers."
  const MisdirectedRequestDescription: string :=
    "The request was directed at a server that is unable or unwilling to produce an authoritative response for the target URI."
  const UnprocessableContentDescription: string :=
    "The server understands the content type of the request content, and the syntax of the request content is correct, but it was unable to process the contained instructions."
  const UpgradeRequiredDescription: string :=
    "The server refuses to perform the request using the current protocol but might be willing to do so after the client upgrades to a different protocol."
  const InternalServerErrorDescription: string :=
    "The server encountered an unexpected condition that prevented it from fulfilling the request."
  const NotImplementedDescription: string :=
    "The server does not support the functionality required to fulfill the request."
  const BadGatewayDescription: string :=
    "The server, while acting as a gateway or proxy, received an invalid response from an inbound server it accessed while attempting to fulfill the request."
  const ServiceUnavailableDescription: string :=
    "The server is currently unable to handle the request due to a temporary overload or scheduled maintenance."
  const GatewayTimeoutDescription: string :=
    "The server, while acting as a gateway or proxy, did not receive a timely response from an upstream server it needed to access in order to complete the request."
  const HttpVersionNotSupportedDescription: string :=
    "The server does not support, or refuses to support, the major version of HTTP that was used in the request message."

  // The five classes of RFC 9110 section 15. Each is a half-open range, and
  // each holds exactly when the class digit of the code is its digit.

  /** 1xx: the request was received, continuing process. */
  predicate IsInformational(status: int)
    ensures IsInformational(status) <==> ClassDigit(status) == Some('1')
  {
    ClassDigitOf(status);
    status >= 100 && status < 200
  }

  /** 2xx: the request was successfully received, understood and accepted. */
  predicate IsSuccessful(status: int)
    ensures IsSuccessful(status) <==> ClassDigit(status) == Some('2')
  {
    ClassDigitOf(status);
    status >= 200 && status < 300
  }

  /** 3xx: further action is needed to complete the request. */
  predicate IsRedirection(status: int)
    ensures IsRedirection(status) <==> ClassDigit(status) == Some('3')
  {
    ClassDigitOf(status);
    status >= 300 && status < 400
  }

  /** 4xx: the request contains bad syntax or cannot be fulfilled. */
  predicate IsClientError(status: int)
    ensures IsClientError(status) <==> ClassDigit(status) == Some('4')
  {
    ClassDigitOf(status);
    status >= 400 && status < 500
  }

  /** 5xx: the server failed to fulfil an apparently valid request. */
  predicate IsServerError(status: int)
    ensures IsServerError(status) <==> ClassDigit(status) == Some('5')
  {
    ClassDigitOf(status);
    status >= 500 && status < 600
  }

  /** How many of the five class predicates hold for `status`. */
  function ClassCount(status: int): nat {
    (if IsInformational(status) then 1 else 0)
    + (if IsSuccessful(status) then 1 else 0)
    + (if IsRedirection(status) then 1 else 0)
    + (if IsClientError(status) then 1 else 0)
    + (if IsServerError(status) then 1 else 0)
  }

  /** Reason phrase of `status`, or "" for a code the table does not list. */
  function GetReason(status: int): (r: string)
    ensures r == "" <==> status !in Reasons
    ensures status in Reasons ==> r == Reasons[status]
  {
    TableValuesNonEmpty();
    if status in Reasons then Reasons[status] else ""
  }

  /** Deprecated alias of GetReason. */
  function Reason(status: int): (r: string)
    ensures r == GetReason(status)
  {
    GetReason(status)
  }

  /** Description of `status`, or "" for a code the table does not list. */
  function GetDescription(status: int): (r: string)
    ensures r == "" <==> status !in Descriptions
    ensures status in Descriptions ==> r == Descriptions[status]
  {
    TableValuesNonEmpty();
    if status in Descriptions then Descriptions[status] else ""
  }

  /** The whole reason table: its keys are the codes GetReason knows, and
      at every key it agrees with GetReason. */
  function GetAllReasons(): (m: map<int, string>)
    ensures forall c :: c in m <==> GetReason(c) != ""
    ensures forall c :: c in m ==> m[c] == GetReason(c)
  {
    Reasons
  }

  /** The whole description table, in the same relation to GetDescription. */
  function GetAllDescriptions(): (m: map<int, string>)
    ensures forall c :: c in m <==> GetDescription(c) != ""
    ensures forall c :: c in m ==> m[c] == GetDescription(c)
  {
    Descriptions
  }

  /** The five classes partition [100, 600): inside it exactly one class
      predicate holds, outside it none does. */
  lemma ClassesPartition(status: int)
    ensures 100 <= status < 600 ==> ClassCount(status) == 1
    ensures (status < 100 || status >= 600) ==> ClassCount(status) == 0
  {
  }

  /** The class digit is the hundreds digit exactly for the three-digit
      codes [100, 1000); negative codes, codes below 100 and codes from 1000
      on have none. */
  lemma ClassDigitOf(status: int)
    ensures ClassDigit(status) == if 100 <= status < 1000 then Some(Decimal.DigitChar(status / 100)) else None
  {
    if status >= 0 {
      Decimal.ThreeDigits(status);
    }
  }

  /** The class digit of RFC 9110 section 15: the first character of the
      decimal rendering of `status` when that rendering is three digits. */
  function ClassDigit(status: int): Option<char> {
    var text := Decimal.IntToDecimal(status);
    if |text| == 3 && Decimal.IsDigit(text[0]) then Some(text[0]) else None
  }

  /** Every listed code is a three-digit code in exactly one class. */
  lemma TableKeysClassified()
    ensures forall c :: c in Reasons ==> 100 <= c < 600 && ClassCount(c) == 1
  {
  }

  /** Every named 1xx constant is the key of its own reason phrase, so each
      name reaches the entry it is named after (and, by TablesShareKeys, has
      a description). */
  lemma InformationalNamesListed()
    ensures Continue in Reasons && Reasons[Continue] == "Continue"
    ensures SwitchingProtocols in Reasons && Reasons[SwitchingProtocols] == "Switching Protocols"
  {
  }

  /** Every named 2xx constant is the key of its own reason phrase, so each
      name reaches the entry it is named after (and, by TablesShareKeys, has
      a description). */
  lemma SuccessfulNamesListed()
    ensures Ok in Reasons && Reasons[Ok] == "OK"
    ensures Created in Reasons && Reasons[Created] == "Created"
    ensures Accepted in Reasons && Reasons[Accepted] == "Accepted"
    ensures NonAuthoritativeInformation in Reasons && Reasons[NonAuthoritativeInformation] == "Non-Authoritative Information"
    ensures NoContent in Reasons && Reasons[NoContent] == "No Content"
    ensures ResetContent in Reasons && Reasons[ResetContent] == "Reset Content"
    ensures PartialContent in Reasons && Reasons[PartialContent] == "Partial Content"
  {
  }

  /** Every named 3xx constant is the key of its own reason phrase, so each
      name reaches the entry it is named after (and, by TablesShareKeys, has
      a description). */
  lemma RedirectionNamesListed()
    ensures MultipleChoices in Reasons && Reasons[MultipleChoices] == "Multiple Choices"
    ensures MovedPermanently in Reasons && Reasons[MovedPermanently] == "Moved Permanently"
    ensures Found in Reasons && Reasons[Found] == "Found"
    ensures SeeOther in Reasons && Reasons[SeeOther] == "See Other"
    ensures NotModified in Reasons && Reasons[NotModified] == "Not Modified"
    ensures UseProxy in Reasons && Reasons[UseProxy] == "Use Proxy"
    ensures TemporaryRedirect in Reasons && Reasons[TemporaryRedirect] == "Temporary Redirect"
    ensures PermanentRedirect in Reasons && Reasons[PermanentRedirect] == "Permanent Redirect"
  {
  }

  /** Every named 4xx constant is the key of its own reason phrase, so each
      name reaches the entry it is named after (and, by TablesShareKeys, has
      a description). */
  lemma ClientErrorNamesListed()
    ensures BadRequest in Reasons && Reasons[BadRequest] == "Bad Request"
    ensures Unauthorized in Reasons && Reasons[Unauthorized] == "Unauthorized"
    ensures PaymentRequired in Reasons && Reasons[PaymentRequired] == "Payment Required"
    ensures Forbidden in Reasons && Reasons[Forbidden] == "Forbidden"
    ensures NotFound in Reasons && Reasons[NotFound] == "Not Found"
    ensures MethodNotAllowed in Reasons && Reasons[MethodNotAllowed] == "Method Not Allowed"
    ensures NotAcceptable in Reasons && Reasons[NotAcceptable] == "Not Acceptable"
    ensures ProxyAuthenticationRequired in Reasons && Reasons[ProxyAuthenticationRequired] == "Proxy Authentication Required"
    ensures RequestTimeout in Reasons && Reasons[RequestTimeout] == "Request Timeout"
    ensures Conflict in Reasons && Reasons[Conflict] == "Conflict"
    ensures Gone in Reasons && Reasons[Gone] == "Gone"
    ensures LengthRequired in Reasons && Reasons[LengthRequired] == "Length Required"
    ensures PreconditionFailed in Reasons && Reasons[PreconditionFailed] == "Precondition Failed"
    ensures ContentTooLarge in Reasons && Reasons[ContentTooLarge] == "Content Too Large"
    ensures PayloadTooLarge in Reasons && Reasons[PayloadTooLarge] == "Content Too Large"
    ensures UriTooLong in Reasons && Reasons[UriTooLong] == "URI Too Long"
    ensures UnsupportedMediaType in Reasons && Reasons[UnsupportedMediaType] == "Unsupported Media Type"
    ensures RangeNotSatisfiable in Reasons && Reasons[RangeNotSatisfiable] == "Range Not Satisfiable"
    ensures ExpectationFailed in Reasons && Reasons[ExpectationFailed] == "Expectation Failed"
    ensures MisdirectedRequest in Reasons && Reasons[MisdirectedRequest] == "Misdirected Request"
    ensures UnprocessableContent in Reasons && Reasons[UnprocessableContent] == "Unprocessable Content"
    ensures UpgradeRequired in Reasons && Reasons[UpgradeRequired] == "Upgrade Required"
  {
  }

  /** Every named 5xx constant is the key of its own reason phrase, so each
      name reaches the entry it is named after (and, by TablesShareKeys, has
      a description). */
  lemma ServerErrorNamesListed()
    ensures InternalServerError in Reasons && Reasons[InternalServerError] == "Internal Server Error"
    ensures NotImplemented in Reasons && Reasons[NotImplemented] == "Not Implemented"
    ensures BadGateway in Reasons && Reasons[BadGateway] == "Bad Gateway"
    ensures ServiceUnavailable in Reasons && Reasons[ServiceUnavailable] == "Service Unavailable"
    ensures GatewayTimeout in Reasons && Reasons[GatewayTimeout] == "Gateway Timeout"
    ensures HttpVersionNotSupported in Reasons && Reasons[HttpVersionNotSupported] == "HTTP Version Not Supported"
  {
  }

  /** The two tables list the same codes. */
  lemma TablesShareKeys()
    ensures Reasons.Keys == Descriptions.Keys
  {
  }

  /** No table entry is empty, so "" never stands for a listed code. */
  lemma TableValuesNonEmpty()
    ensures forall c :: c in Reasons ==> Reasons[c] != ""
    ensures forall c :: c in Descriptions ==> Descriptions[c] != ""
  {
  }

  /** The deprecated name for 413 is the same code, so both names reach the
      single entry "Content Too Large". */
  lemma PayloadTooLargeIsContentTooLarge()
    ensures PayloadTooLarge == ContentTooLarge == 413
    ensures GetReason(PayloadTooLarge) == GetReason(ContentTooLarge) == "Content Too Large"
    ensures GetDescription(PayloadTooLarge) == GetDescription(ContentTooLarge) != ""
  {
  }

  /** Lookups of a known and of an unknown code. */
  lemma LookupExamples()
    ensures GetReason(Ok) == Reason(200) == "OK"
    ensures GetReason(999999) == ""
    ensures GetDescription(200) != ""
    ensures 200 in GetAllReasons() && GetAllReasons()[200] == "OK"
    ensures GetAllDescriptions() != map[]
  {
  }
}
