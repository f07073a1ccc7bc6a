/**
 * The Microsoft Graph application types the exporter caches, the decoding rule for a
 * password credential's `endDateTime`, and the "seconds remaining" projection that the
 * expiry gauge reports.
 *
 * Time is whole seconds since the Unix epoch, in UTC. The date-time text parser the
 * source delegates to (chrono's `%+` format) is not modelled: every decoder takes it as a
 * parameter `parseTime`, a partial function from text to a timestamp.
 */
module Applications {
  import opened Wrappers

  /** Whole seconds since the Unix epoch, UTC. */
  type Timestamp = int

  /** A client secret of an application registration. */
  datatype PasswordCredential = PasswordCredential(
    keyId: string,
    displayName: Option<string>,
    endDateTime: Option<Timestamp>)

  /** One application registration; `id` is the cache key. */
  datatype AzureApplication = AzureApplication(
    id: string,
    appId: string,
    displayName: Option<string>,
    passwordCredentials: seq<PasswordCredential>)

  /** One page of the application collection: `@odata.nextLink` and `value`. */
  datatype AzureApplications = AzureApplications(
    nextLink: Option<string>,
    value: seq<AzureApplication>)

  /** The same three shapes as they arrive, before `endDateTime` is parsed. */
  datatype RawPasswordCredential = RawPasswordCredential(
    keyId: string,
    displayName: Option<string>,
    endDateTime: Option<string>)

  datatype RawApplication = RawApplication(
    id: string,
    appId: string,
    displayName: Option<string>,
    passwordCredentials: seq<RawPasswordCredential>)

  datatype RawPage = RawPage(
    nextLink: Option<string>,
    value: seq<RawApplication>)

  /** The decode error `parse_date_time` raises: the text that did not parse. */
  datatype DecodeError = InvalidTime(text: string)

  /** An integer extended with positive infinity, standing for the gauge's `f64`. */
  datatype ExtInt = Finite(n: int) | PosInfinity

  /**
   * Seconds until the credential expires: infinite when it has no end time, otherwise
   * the signed difference, negative once expired and never clamped.
   */
  function RemainingSeconds(c: PasswordCredential, now: Timestamp): (r: ExtInt)
    ensures r.PosInfinity? <==> c.endDateTime.None?
    ensures r.Finite? ==> r.n == c.endDateTime.value - now
  {
    match c.endDateTime
    case None => PosInfinity
    case Some(end) => Finite(end - now)
  }

  /** An expired credential reports a negative value, a live one a positive value. */
  lemma RemainingSecondsSign(c: PasswordCredential, now: Timestamp)
    requires c.endDateTime.Some?
    ensures RemainingSeconds(c, now).Finite?
    ensures RemainingSeconds(c, now).n < 0 <==> c.endDateTime.value < now
    ensures RemainingSeconds(c, now).n > 0 <==> c.endDateTime.value > now
  {
  }

  /** Time only runs down: a later observation never reports more remaining seconds. */
  lemma RemainingSecondsDecreases(c: PasswordCredential, earlier: Timestamp, later: Timestamp)
    requires earlier <= later
    ensures RemainingSeconds(c, later).Finite? ==> RemainingSeconds(c, later).n <= RemainingSeconds(c, earlier).n
    ensures RemainingSeconds(c, later).PosInfinity? == RemainingSeconds(c, earlier).PosInfinity?
  {
  }

  /** Whether an `endDateTime` (text, or `None` for `null`) is accepted by the decoder. */
  predicate TimeDecodes(text: Option<string>, parseTime: string -> Option<Timestamp>)
  {
    text.None? || parseTime(text.value).Some?
  }

  /**
   * `parse_date_time`: an `endDateTime` of JSON `null` decodes to no end time, a text
   * that parses decodes to that instant, and a text that does not parse is an error.
   * `None` here is the explicit `null`; a credential without the key at all fails to
   * decode before this rule is reached (a body-decode failure of the response).
   */
  function ParseDateTime(text: Option<string>, parseTime: string -> Option<Timestamp>): (r: Result<Option<Timestamp>, DecodeError>)
    ensures r.Ok? <==> TimeDecodes(text, parseTime)
    ensures r.Ok? ==> (r.value.None? <==> text.None?)
    ensures r.Ok? && text.Some? ==> Some(r.value.value) == parseTime(text.value)
    ensures r.Err? ==> r.error == InvalidTime(text.value)
  {
    match text
    case None => Ok(None)
    case Some(s) =>
      match parseTime(s)
      case None => Err(InvalidTime(s))
      case Some(t) => Ok(Some(t))
  }

  /** The credential a raw credential decodes to once its end time parsed. */
  function Decoded(raw: RawPasswordCredential, parseTime: string -> Option<Timestamp>): PasswordCredential
    requires TimeDecodes(raw.endDateTime, parseTime)
  {
    PasswordCredential(raw.keyId, raw.displayName, ParseDateTime(raw.endDateTime, parseTime).value)
  }

  function DecodePasswordCredential(raw: RawPasswordCredential, parseTime: string -> Option<Timestamp>): (r: Result<PasswordCredential, DecodeError>)
  {
    match ParseDateTime(raw.endDateTime, parseTime)
    case Err(e) => Err(e)
    case Ok(end) => Ok(PasswordCredential(raw.keyId, raw.displayName, end))
  }

  /**
   * Decoding a credential list succeeds exactly when every end time decodes, and then
   * keeps every credential, in order; a bad end time is never silently dropped.
   */
  function DecodePasswordCredentials(raws: seq<RawPasswordCredential>, parseTime: string -> Option<Timestamp>): (r: Result<seq<PasswordCredential>, DecodeError>)
    ensures r.Ok? <==> forall i :: 0 <= i < |raws| ==> TimeDecodes(raws[i].endDateTime, parseTime)
    ensures r.Ok? ==> |r.value| == |raws|
    ensures r.Ok? ==> forall i :: 0 <= i < |raws| ==> TimeDecodes(raws[i].endDateTime, parseTime) && r.value[i] == Decoded(raws[i], parseTime)
  {
    if raws == [] then Ok([])
    else
      match DecodePasswordCredential(raws[0], parseTime)
      case Err(e) => Err(e)
      case Ok(c) =>
        match DecodePasswordCredentials(raws[1..], parseTime)
        case Err(e) => Err(e)
        case Ok(cs) => Ok([c] + cs)
  }

  /** Whether every credential end time of an application decodes. */
  predicate ApplicationDecodes(raw: RawApplication, parseTime: string -> Option<Timestamp>)
  {
    forall i :: 0 <= i < |raw.passwordCredentials| ==> TimeDecodes(raw.passwordCredentials[i].endDateTime, parseTime)
  }

  /** The application a raw application decodes to once every end time parsed. */
  function DecodedApplication(raw: RawApplication, parseTime: string -> Option<Timestamp>): AzureApplication
    requires ApplicationDecodes(raw, parseTime)
  {
    var creds := raw.passwordCredentials;
    AzureApplication(raw.id, raw.appId, raw.displayName,
      seq(|creds|, i requires 0 <= i < |creds| && TimeDecodes(creds[i].endDateTime, parseTime) => Decoded(creds[i], parseTime)))
  }

  /**
   * An application decodes exactly when all its credentials do, and then keeps its
   * identifiers and display name and every credential, decoded, in order.
   */
  function DecodeApplication(raw: RawApplication, parseTime: string -> Option<Timestamp>): (r: Result<AzureApplication, DecodeError>)
    ensures r.Ok? <==> ApplicationDecodes(raw, parseTime)
    ensures r.Ok? ==> r.value == DecodedApplication(raw, parseTime)
  {
    match DecodePasswordCredentials(raw.passwordCredentials, parseTime)
    case Err(e) => Err(e)
    case Ok(cs) =>
      assert cs == DecodedApplication(raw, parseTime).passwordCredentials;
      Ok(AzureApplication(raw.id, raw.appId, raw.displayName, cs))
  }

  /**
   * Decoding a list of applications succeeds exactly when every application decodes,
   * and keeps them all, in order, each decoded on its own.
   */
  function DecodeApplications(raws: seq<RawApplication>, parseTime: string -> Option<Timestamp>): (r: Result<seq<AzureApplication>, DecodeError>)
    ensures r.Ok? <==> forall i :: 0 <= i < |raws| ==> ApplicationDecodes(raws[i], parseTime)
    ensures r.Ok? ==> |r.value| == |raws|
    ensures r.Ok? ==> forall i :: 0 <= i < |raws| ==> ApplicationDecodes(raws[i], parseTime) && r.value[i] == DecodedApplication(raws[i], parseTime)
  {
    if raws == [] then Ok([])
    else
      match DecodeApplication(raws[0], parseTime)
      case Err(e) => Err(e)
      case Ok(a) =>
        match DecodeApplications(raws[1..], parseTime)
        case Err(e) => Err(e)
        case Ok(rest) => Ok([a] + rest)
  }

  /**
   * A page decodes exactly when every credential end time on it decodes: one bad
   * timestamp fails the whole page. The next link is carried over unchanged and every
   * application is kept, decoded, in order.
   */
  function DecodePage(raw: RawPage, parseTime: string -> Option<Timestamp>): (r: Result<AzureApplications, DecodeError>)
    ensures r.Ok? <==> forall i :: 0 <= i < |raw.value| ==> ApplicationDecodes(raw.value[i], parseTime)
    ensures r.Ok? ==> r.value.nextLink == raw.nextLink && |r.value.value| == |raw.value|
    ensures r.Ok? ==> forall i :: 0 <= i < |raw.value| ==> ApplicationDecodes(raw.value[i], parseTime) && r.value.value[i] == DecodedApplication(raw.value[i], parseTime)
  {
    match DecodeApplications(raw.value, parseTime)
    case Err(e) => Err(e)
    case Ok(apps) => Ok(AzureApplications(raw.nextLink, apps))
  }

  /**
   * On a decoded page every credential keeps its key and its end time as the parser read
   * it: a null end time stays absent, a present one becomes the parsed instant.
   */
  lemma DecodedPageKeepsEndTimes(raw: RawPage, parseTime: string -> Option<Timestamp>, i: nat, j: nat)
    requires DecodePage(raw, parseTime).Ok?
    requires i < |raw.value| && j < |raw.value[i].passwordCredentials|
    ensures var page := DecodePage(raw, parseTime).value;
      var rawCred := raw.value[i].passwordCredentials[j];
      && page.value[i].id == raw.value[i].id
      && j < |page.value[i].passwordCredentials|
      && page.value[i].passwordCredentials[j].keyId == rawCred.keyId
      && (rawCred.endDateTime.None? ==> page.value[i].passwordCredentials[j].endDateTime.None?)
      && (rawCred.endDateTime.Some? ==> page.value[i].passwordCredentials[j].endDateTime == parseTime(rawCred.endDateTime.value))
  {
    var app := DecodePage(raw, parseTime).value.value[i];
    assert app == DecodedApplication(raw.value[i], parseTime);
    assert app.passwordCredentials[j] == Decoded(raw.value[i].passwordCredentials[j], parseTime);
  }
}
