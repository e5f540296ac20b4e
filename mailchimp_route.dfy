/** The Mailchimp `POST` handler: a rate check keyed on the caller's address,
    the email validation, the credential and datacenter checks, and the
    mapping of Mailchimp's reply to an HTTP status and message. */
module MailchimpRoute {
  import opened Js
  import opened Messages
  import opened Text
  import opened Email
  import opened FixedWindow

  const ConfigurationError := "Configuration error. Please try again later."
  const Unexpected := "Something went wrong. Please try again."

  /** The tag every new member carries. */
  const WaitlistTag := "marketlinter-waitlist"

  /** A JSON response: its status, the optional `success` field and `message`. */
  datatype HttpReply = HttpReply(status: int, success: Option<bool>, message: string)

  /** What `await request.json()` and the destructuring of `email` gave: the
      `email` field (a non-string when it is missing), or a thrown error. */
  datatype RequestBody = Unreadable | Parsed(email: Value)

  /** The member-creation request sent to Mailchimp (the Authorization header
      is not modelled). */
  datatype MemberRequest = MemberRequest(url: string, emailAddress: string, status: string, tags: seq<string>)

  /** The body of Mailchimp's reply after `response.json()`: not JSON, `null`,
      or an object with an optional string `title`. */
  datatype ReplyBody = NotJson | NullBody | Body(title: Option<string>)

  /** What the `fetch` call gave: a thrown error, or a response. */
  datatype MailchimpReply = FetchThrew | Replied(ok: bool, data: ReplyBody)

  /** The rate-limit key: `x-forwarded-for`, else `x-real-ip`, else "unknown". */
  function Identifier(forwardedFor: Option<string>, realIp: Option<string>): (id: string)
    ensures id != ""
    ensures Truthy(forwardedFor) ==> id == forwardedFor.value
    ensures !Truthy(forwardedFor) && Truthy(realIp) ==> id == realIp.value
    ensures !Truthy(forwardedFor) && !Truthy(realIp) ==> id == "unknown"
  {
    var header := Or(forwardedFor, realIp);
    if Truthy(header) then header.value else "unknown"
  }

  /** `MAILCHIMP_API_KEY.split("-")[1]` when it is a non-empty string. */
  function Datacenter(apiKey: string): (dc: Option<string>)
    ensures dc.Some? ==> dc.value != "" && '-' !in dc.value
  {
    var parts := Split(apiKey, '-');
    if |parts| >= 2 && parts[1] != "" then Some(parts[1]) else None
  }

  /** The datacenter is the segment after the first `-`, up to the next `-`
      or the end of the key. */
  lemma DatacenterOfKey(parts: seq<string>)
    requires |parts| >= 2 && parts[1] != ""
    requires forall i :: 0 <= i < |parts| ==> '-' !in parts[i]
    ensures Datacenter(Join(parts, '-')) == Some(parts[1])
  {
    SplitJoin(parts, '-');
  }

  /** A key without a `-`, or with nothing between its first two `-`, has no
      datacenter. */
  lemma NoDatacenter(parts: seq<string>)
    requires |parts| == 1 || (|parts| >= 2 && parts[1] == "")
    requires forall i :: 0 <= i < |parts| ==> '-' !in parts[i]
    ensures Datacenter(Join(parts, '-')).None?
  {
    SplitJoin(parts, '-');
  }

  /** The members endpoint of a list in a datacenter. */
  function MembersUrl(dc: string, listId: string): string
  {
    "https://" + dc + ".api.mailchimp.com/3.0/lists/" + listId + "/members"
  }

  /** The reply handling of lines 106-138: the body is parsed first, then the
      status decides, and a failed status is classified by its title. */
  function MapReply(reply: MailchimpReply): (r: HttpReply)
    ensures reply.FetchThrew? || reply.data.NotJson? ==> r == HttpReply(500, None, Unexpected)
    // reading `title` of a `null` body throws, which the `catch` turns into 500
    ensures reply.Replied? && !reply.ok && reply.data.NullBody? ==> r == HttpReply(500, None, Unexpected)
    ensures r.status == 200 <==> reply.Replied? && reply.ok && !reply.data.NotJson?
    ensures r.status == 200 ==> r == HttpReply(200, Some(true), Joined)
    ensures r.status == 400 ==> r.message in {AlreadyListed, InvalidEmail}
  {
    match reply
    case FetchThrew => HttpReply(500, None, Unexpected)
    case Replied(ok, data) =>
      if data.NotJson? then HttpReply(500, None, Unexpected)
      else if ok then HttpReply(200, Some(true), Joined)
      else
        match data
        case NullBody => HttpReply(500, None, Unexpected)
        case Body(title) =>
          if title == Some("Member Exists") then HttpReply(400, None, AlreadyListed)
          else if title == Some("Invalid Resource") then HttpReply(400, None, InvalidEmail)
          else HttpReply(500, None, Unavailable)
  }

  /** A reply that is not ok maps by its title: "Member Exists" to 400 and the
      duplicate message, "Invalid Resource" to 400 and the invalid-address
      message, anything else to 500. */
  lemma FailedReplyByTitle(title: Option<string>)
    ensures MapReply(Replied(false, Body(title))) ==
      if title == Some("Member Exists") then HttpReply(400, None, AlreadyListed)
      else if title == Some("Invalid Resource") then HttpReply(400, None, InvalidEmail)
      else HttpReply(500, None, Unavailable)
  {
  }

  /** The request `POST` sends for a sanitised address, when the key carries
      a datacenter. */
  function RequestFor(email: string, dc: string, listId: string): (q: MemberRequest)
    ensures q.emailAddress == email && q.status == "subscribed" && q.tags == [WaitlistTag]
  {
    MemberRequest(MembersUrl(dc, listId), email, "subscribed", [WaitlistTag])
  }

  /** The part of `POST` after a valid address: the credentials check, the
      datacenter and the call to Mailchimp (lines 58-138). */
  function Forward(sanitized: string, vars: map<string, string>,
                   mailchimp: MemberRequest -> MailchimpReply): (r: HttpReply)
    ensures r.status in {200, 400, 500}
    ensures r.success.Some? <==> r.status == 200
    ensures r.success.Some? ==> r.success.value
  {
    var apiKey := Lookup(vars, "MAILCHIMP_API_KEY");
    var listId := Lookup(vars, "MAILCHIMP_LIST_ID");
    if !Truthy(apiKey) || !Truthy(listId) then
      if Lookup(vars, "NODE_ENV") == Some("development") then HttpReply(200, Some(true), DevModeSuccess)
      else HttpReply(500, None, NotConfigured)
    else
      match Datacenter(apiKey.value)
      case None => HttpReply(500, None, ConfigurationError)
      case Some(dc) => MapReply(mailchimp(RequestFor(sanitized, dc, listId.value)))
  }

  /** `POST(request)`, given the rate verdict, the body, `process.env` and
      Mailchimp's reply to each possible request. */
  function Post(limited: bool, body: RequestBody, vars: map<string, string>,
                mailchimp: MemberRequest -> MailchimpReply): (r: HttpReply)
    ensures r.status in {200, 400, 429, 500}
    // rate limiting happens before the body is read
    ensures r.status == 429 <==> limited
    ensures limited ==> r == HttpReply(429, None, TooManyRequests)
    // a body that cannot be read throws, which the `catch` turns into 500
    ensures !limited && body.Unreadable? ==> r == HttpReply(500, None, Unexpected)
    ensures !limited && body.Parsed? && Validate(body.email).None? ==> r == HttpReply(400, None, InvalidEmail)
    // `success: true` appears exactly on the 200 responses
    ensures r.success.Some? <==> r.status == 200
    ensures r.success.Some? ==> r.success.value
  {
    if limited then
      HttpReply(429, None, TooManyRequests)
    else
      match body
      case Unreadable => HttpReply(500, None, Unexpected)
      case Parsed(email) =>
        match Validate(email)
        case None => HttpReply(400, None, InvalidEmail)
        case Some(sanitized) => Forward(sanitized, vars, mailchimp)
  }

  /** Missing credentials give 200 with success in development and 500
      otherwise. */
  lemma UnconfiguredPost(email: Value, vars: map<string, string>, mailchimp: MemberRequest -> MailchimpReply)
    requires Validate(email).Some?
    requires !Truthy(Lookup(vars, "MAILCHIMP_API_KEY")) || !Truthy(Lookup(vars, "MAILCHIMP_LIST_ID"))
    ensures Post(false, Parsed(email), vars, mailchimp) ==
      if Lookup(vars, "NODE_ENV") == Some("development") then HttpReply(200, Some(true), DevModeSuccess)
      else HttpReply(500, None, NotConfigured)
  {
  }

  /** A configured key without a datacenter gives 500; with one, Mailchimp is
      asked at `https://{dc}.api.mailchimp.com/3.0/lists/{listId}/members` for
      the sanitised address and its reply decides the response. */
  lemma ConfiguredPost(email: Value, vars: map<string, string>, mailchimp: MemberRequest -> MailchimpReply)
    requires Validate(email).Some?
    requires Truthy(Lookup(vars, "MAILCHIMP_API_KEY")) && Truthy(Lookup(vars, "MAILCHIMP_LIST_ID"))
    ensures var key := vars["MAILCHIMP_API_KEY"];
      var r := Post(false, Parsed(email), vars, mailchimp);
      match Datacenter(key)
      case None => r == HttpReply(500, None, ConfigurationError)
      case Some(dc) =>
        r == MapReply(mailchimp(MemberRequest(
          "https://" + dc + ".api.mailchimp.com/3.0/lists/" + vars["MAILCHIMP_LIST_ID"] + "/members",
          Sanitize(email.s), "subscribed", [WaitlistTag])))
  {
    assert email.Str? && Validate(email).value == Sanitize(email.s);
    assert Post(false, Parsed(email), vars, mailchimp) == Forward(Sanitize(email.s), vars, mailchimp);
    assert Lookup(vars, "MAILCHIMP_API_KEY") == Some(vars["MAILCHIMP_API_KEY"]);
    assert Lookup(vars, "MAILCHIMP_LIST_ID") == Some(vars["MAILCHIMP_LIST_ID"]);
  }

  /** `POST(request)` with the route's own table: the caller's address is
      checked against the table, and the rest of the handler follows. */
  method HandlePost(limiter: RateLimiter<string>, forwardedFor: Option<string>, realIp: Option<string>,
                    now: int, body: RequestBody, vars: map<string, string>,
                    mailchimp: MemberRequest -> MailchimpReply)
    returns (r: HttpReply)
    requires limiter.Valid()
    modifies limiter
    ensures limiter.Valid()
    ensures var d := Admit(old(limiter.records), Identifier(forwardedFor, realIp), now);
      limiter.records == d.records && r == Post(d.limited, body, vars, mailchimp)
  {
    var ip := Identifier(forwardedFor, realIp);
    var limited := limiter.IsRateLimited(ip, now);
    r := Post(limited, body, vars, mailchimp);
  }
}
