/** The license lifecycle of the caption service as pure functions: the gate of
    `POST /generate` and the transition applied by `POST /webhook` for the
    payment provider's `sale` and `subscription_cancelled` events.

    Instants are integers (seconds). The provider of generated text is not
    called here: its reply is an input. Every form field of the webhook arrives
    already decoded, as an optional string (the next charge date as an optional,
    already parsed instant). */
module Lifecycle {
  import opened Records

  const SecondsPerDay := 86400

  /** The grant of a `sale` that carries no next charge date: thirty days. */
  const DefaultGrant := 30 * SecondsPerDay

  /** The detail of the 403 answer to a refused generate request. */
  const ForbiddenDetail := "License expired or not found"

  /** The detail of the 400 answer to a webhook without its required fields. */
  const MissingFieldsDetail := "Missing fields in Gumroad payload"

  /** What the text-generation provider gave back for the prompt: the reply
      (already stripped of surrounding whitespace) or the error's detail. */
  datatype ProviderReply = Reply(text: string) | ProviderError(detail: string)

  /** The answer to `POST /generate`. */
  datatype GenerateResponse = Caption(text: string) | Forbidden | GenerationFailed(detail: string)
  {
    function StatusCode(): int {
      match this
      case Caption(_) => 200
      case Forbidden => 403
      case GenerationFailed(_) => 500
    }

    /** The `detail` of an error answer; a caption has none. */
    function Detail(): Option<string> {
      match this
      case Caption(_) => None
      case Forbidden => Some(ForbiddenDetail)
      case GenerationFailed(detail) => Some(detail)
    }
  }

  /** The answer to `POST /webhook`. */
  datatype WebhookResponse = SaleRecorded(activeUntil: int) | Cancelled | Ignored(event: string) | MissingFields
  {
    function StatusCode(): int {
      if MissingFields? then 400 else 200
    }

    /** The `status` field of the JSON body; the 400 answer has none. */
    function Status(): Option<string> {
      match this
      case SaleRecorded(_) => Some("ok")
      case Cancelled => Some("cancelled")
      case Ignored(event) => Some("ignored event " + event)
      case MissingFields => None
    }

    /** The `detail` of the 400 answer; the other answers have none. */
    function Detail(): Option<string> {
      if MissingFields? then Some(MissingFieldsDetail) else None
    }
  }

  /** The new state of the caption log and the answer, after a generate request. */
  datatype Generated = Generated(captions: seq<CaptionRecord>, response: GenerateResponse)

  /** The new licenses table and the answer, after a webhook. */
  datatype Applied = Applied(licenses: LicenseTable, response: WebhookResponse)

  /** The license gate: a request is refused when no record exists for the key
      or when the record's `active_until` lies before `now`. */
  predicate Admits(t: LicenseTable, key: string, now: int) {
    key in t && !(t[key].activeUntil < now)
  }

  /** A form field is given when it is present and not the empty string. */
  predicate Given(field: Option<string>) {
    field.Some? && field.value != ""
  }

  /** The `active_until` a `sale` grants: its next charge date if it carries one,
      otherwise thirty days from now. */
  function NewActiveUntil(nextCharge: Option<int>, now: int): int {
    match nextCharge
    case Some(instant) => instant
    case None => now + DefaultGrant
  }

  /** `POST /generate` with license key `key` at instant `now`, on the licenses
      table `t` and the caption log `log`, when the provider answers `reply`.
      The licenses table is only read. */
  function GenerateResult(t: LicenseTable, log: seq<CaptionRecord>, key: string,
                          topic: string, tone: string, channel: string,
                          now: int, reply: ProviderReply): Generated
  {
    if !Admits(t, key, now) then
      Generated(log, Forbidden)
    else
      match reply
      case Reply(text) => Generated(log + [CaptionRecord(topic, tone, channel, text)], Caption(text))
      case ProviderError(detail) => Generated(log, GenerationFailed(detail))
  }

  /** `POST /webhook` at instant `now` on the licenses table `t`. */
  function WebhookResult(t: LicenseTable, event: Option<string>, email: Option<string>,
                         key: Option<string>, nextCharge: Option<int>, now: int): Applied
  {
    if !(Given(event) && Given(email) && Given(key)) then
      Applied(t, MissingFields)
    else if event.value == "sale" then
      var until := NewActiveUntil(nextCharge, now);
      var k := key.value;
      var record := if k in t then t[k].(activeUntil := until) else License(email.value, k, until);
      Applied(t[k := record], SaleRecorded(until))
    else if event.value == "subscription_cancelled" then
      var k := key.value;
      if k in t then Applied(t[k := t[k].(activeUntil := now)], Cancelled)
      else Applied(t, Cancelled)
    else
      Applied(t, Ignored(event.value))
  }

  /** A well-formed `sale` or `subscription_cancelled` names the key it changes;
      nothing else changes any record. */
  predicate Touches(event: Option<string>, email: Option<string>, key: Option<string>, k: string) {
    Given(event) && Given(email) && Given(key) && key.value == k
    && (event.value == "sale" || event.value == "subscription_cancelled")
  }

  // ---------------------------------------------------------------------------
  // The gate of POST /generate

  /** A key without a record is refused with 403, and nothing is logged. */
  lemma UnknownKeyRefused(t: LicenseTable, log: seq<CaptionRecord>, key: string,
                          topic: string, tone: string, channel: string,
                          now: int, reply: ProviderReply)
    requires key !in t
    ensures GenerateResult(t, log, key, topic, tone, channel, now, reply) == Generated(log, Forbidden)
    ensures Forbidden.StatusCode() == 403
    ensures Forbidden.Detail() == Some("License expired or not found")
  {
  }

  /** The gate admits exactly the keys whose record is active at `now`, the
      instant `active_until` itself included; every refusal leaves the log as it was. */
  lemma GenerateGate(t: LicenseTable, log: seq<CaptionRecord>, key: string,
                     topic: string, tone: string, channel: string,
                     now: int, reply: ProviderReply)
    ensures var r := GenerateResult(t, log, key, topic, tone, channel, now, reply);
      (r.response != Forbidden <==> key in t && now <= t[key].activeUntil)
      && (r.response == Forbidden ==> r.captions == log)
  {
  }

  /** An admitted request whose provider replies logs exactly one record with
      the request's fields and the reply, and answers with the reply. */
  lemma GenerateAppendsOne(t: LicenseTable, log: seq<CaptionRecord>, key: string,
                           topic: string, tone: string, channel: string,
                           now: int, text: string)
    requires Admits(t, key, now)
    ensures var r := GenerateResult(t, log, key, topic, tone, channel, now, Reply(text));
      && r.response == Caption(text) && r.response.StatusCode() == 200
      && |r.captions| == |log| + 1
      && r.captions[..|log|] == log
      && r.captions[|log|] == CaptionRecord(topic, tone, channel, text)
  {
  }

  /** A provider error logs nothing and passes its detail on with a 500. */
  lemma ProviderErrorLogsNothing(t: LicenseTable, log: seq<CaptionRecord>, key: string,
                                 topic: string, tone: string, channel: string,
                                 now: int, detail: string)
    requires Admits(t, key, now)
    ensures var r := GenerateResult(t, log, key, topic, tone, channel, now, ProviderError(detail));
      r.captions == log && r.response == GenerationFailed(detail)
      && r.response.StatusCode() == 500 && r.response.Detail() == Some(detail)
  {
  }

  // ---------------------------------------------------------------------------
  // The transitions of POST /webhook

  /** A payload without `event_name`, `email` or `license_key` (or with one of
      them empty) is refused with 400 whatever its event, and nothing changes. */
  lemma MissingFieldRejected(t: LicenseTable, event: Option<string>, email: Option<string>,
                             key: Option<string>, nextCharge: Option<int>, now: int)
    requires !Given(event) || !Given(email) || !Given(key)
    ensures WebhookResult(t, event, email, key, nextCharge, now) == Applied(t, MissingFields)
    ensures MissingFields.StatusCode() == 400 && MissingFields.Status() == None
    ensures MissingFields.Detail() == Some("Missing fields in Gumroad payload")
  {
  }

  /** A `sale` sets the key's `active_until` to its next charge date, or to
      thirty days from now without one, and answers "ok" with that same instant. */
  lemma SaleSetsActiveUntil(t: LicenseTable, email: string, key: string, nextCharge: Option<int>, now: int)
    requires email != "" && key != ""
    ensures var r := WebhookResult(t, Some("sale"), Some(email), Some(key), nextCharge, now);
      var until := if nextCharge.Some? then nextCharge.value else now + 30 * 86400;
      && key in r.licenses && r.licenses[key].activeUntil == until
      && r.response == SaleRecorded(until)
      && r.response.Status() == Some("ok") && r.response.StatusCode() == 200
  {
  }

  /** A `sale` on a stored key replaces only that record's `active_until`:
      the email and the key stay, and no record is added. */
  lemma SaleRenewsExisting(t: LicenseTable, email: string, key: string, nextCharge: Option<int>, now: int)
    requires email != "" && key != "" && key in t
    ensures var r := WebhookResult(t, Some("sale"), Some(email), Some(key), nextCharge, now);
      && r.licenses.Keys == t.Keys
      && r.licenses[key].email == t[key].email
      && r.licenses[key].licenseKey == t[key].licenseKey
  {
  }

  /** A `sale` on an unknown key inserts exactly one record, with the given
      email, key and the granted `active_until`. */
  lemma SaleInsertsUnknown(t: LicenseTable, email: string, key: string, nextCharge: Option<int>, now: int)
    requires email != "" && key != "" && key !in t
    ensures var r := WebhookResult(t, Some("sale"), Some(email), Some(key), nextCharge, now);
      && r.licenses.Keys == t.Keys + {key}
      && |r.licenses| == |t| + 1
      && r.licenses[key] == License(email, key, NewActiveUntil(nextCharge, now))
  {
  }

  /** Repeating a `sale` with the same next charge date, at any later instant,
      leaves the table as the first one left it: renewal overwrites, it does not add up. */
  lemma SaleIdempotent(t: LicenseTable, email: string, key: string, nextCharge: int, now: int, later: int)
    requires email != "" && key != ""
    ensures var once := WebhookResult(t, Some("sale"), Some(email), Some(key), Some(nextCharge), now);
      var twice := WebhookResult(once.licenses, Some("sale"), Some(email), Some(key), Some(nextCharge), later);
      twice == once
  {
    var once := WebhookResult(t, Some("sale"), Some(email), Some(key), Some(nextCharge), now);
    assert once.licenses[key].activeUntil == nextCharge;
    assert once.licenses[key := once.licenses[key].(activeUntil := nextCharge)] == once.licenses;
  }

  /** `subscription_cancelled` on a stored key sets its `active_until` to now
      and changes nothing else; on an unknown key it creates nothing and changes
      nothing. Both answer "cancelled". */
  lemma CancelExpiresNow(t: LicenseTable, email: string, key: string, nextCharge: Option<int>, now: int)
    requires email != "" && key != ""
    ensures var r := WebhookResult(t, Some("subscription_cancelled"), Some(email), Some(key), nextCharge, now);
      && r.response == Cancelled && r.response.Status() == Some("cancelled")
      && (key in t ==> r.licenses == t[key := t[key].(activeUntil := now)])
      && (key !in t ==> r.licenses == t)
  {
  }

  /** Cancellation is lazy expiry: the key is still admitted at the very
      instant of the cancellation, and refused at every later one. */
  lemma CancelledAdmittedOnlyUntilNow(t: LicenseTable, email: string, key: string, now: int, later: int)
    requires email != "" && key != "" && key in t
    ensures var r := WebhookResult(t, Some("subscription_cancelled"), Some(email), Some(key), None, now);
      Admits(r.licenses, key, now) && (later > now ==> !Admits(r.licenses, key, later))
  {
  }

  /** Any other event changes nothing and answers "ignored event <name>". */
  lemma OtherEventIgnored(t: LicenseTable, event: string, email: string, key: string, nextCharge: Option<int>, now: int)
    requires event != "" && email != "" && key != ""
    requires event != "sale" && event != "subscription_cancelled"
    ensures var r := WebhookResult(t, Some(event), Some(email), Some(key), nextCharge, now);
      r.licenses == t && r.response.Status() == Some("ignored event " + event)
  {
  }

  /** A webhook changes at most the record of the key it names, and only when
      it is a well-formed `sale` or `subscription_cancelled`. */
  lemma WebhookFramesOtherKeys(t: LicenseTable, event: Option<string>, email: Option<string>,
                               key: Option<string>, nextCharge: Option<int>, now: int, k: string)
    requires !Touches(event, email, key, k)
    ensures var r := WebhookResult(t, event, email, key, nextCharge, now);
      (k in r.licenses <==> k in t) && (k in t ==> r.licenses[k] == t[k])
  {
  }

  /** Every webhook keeps one record per key, each carrying its own key, and
      deletes nothing. */
  lemma WebhookKeepsKeyed(t: LicenseTable, event: Option<string>, email: Option<string>,
                          key: Option<string>, nextCharge: Option<int>, now: int)
    requires KeyedByLicenseKey(t)
    ensures var r := WebhookResult(t, event, email, key, nextCharge, now);
      KeyedByLicenseKey(r.licenses) && t.Keys <= r.licenses.Keys
      && forall k :: k in t ==> r.licenses[k].email == t[k].email
  {
  }
}
