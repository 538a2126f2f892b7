/** The service over time: a run is a sequence of requests handled one after
    another, each on the store the previous one left. The lemmas here state
    what holds of every run: the uniqueness of keys, that no license is ever
    deleted and no email rewritten, that the caption log only grows, that only
    a `sale` creates a license, and that after a `sale` the key's
    `active_until` is the instant that sale granted until a later request
    touches the key (a `sale` or a cancellation): renewal overwrites, it does
    not accumulate. */
module Runs {
  import opened Records
  import opened Lifecycle

  /** A request to the service, already decoded. */
  datatype Request =
    | GenerateRequest(key: string, topic: string, tone: string, channel: string,
                      now: int, reply: ProviderReply)
    | WebhookRequest(event: Option<string>, email: Option<string>, licenseKey: Option<string>,
                     nextCharge: Option<int>, now: int)

  /** The store after one request. */
  function Handle(s: Store, r: Request): Store {
    match r
    case GenerateRequest(key, topic, tone, channel, now, reply) =>
      Store(s.licenses, GenerateResult(s.licenses, s.captions, key, topic, tone, channel, now, reply).captions)
    case WebhookRequest(event, email, key, nextCharge, now) =>
      Store(WebhookResult(s.licenses, event, email, key, nextCharge, now).licenses, s.captions)
  }

  /** The store after the requests `rs`, in order. */
  function Run(s: Store, rs: seq<Request>): Store
    decreases |rs|
  {
    if rs == [] then s else Run(Handle(s, rs[0]), rs[1..])
  }

  /** The request may change the record of key `k`. */
  predicate MayChange(r: Request, k: string) {
    r.WebhookRequest? && Touches(r.event, r.email, r.licenseKey, k)
  }

  /** The request is a well-formed `sale` for key `k`. */
  predicate IsSaleFor(r: Request, k: string) {
    MayChange(r, k) && r.event.value == "sale"
  }

  /** Every run keeps one record per key, each carrying its own key; no
      license is ever deleted and no stored email is ever rewritten. */
  lemma {:induction false} RunKeepsLicenses(s: Store, rs: seq<Request>)
    requires KeyedByLicenseKey(s.licenses)
    ensures var e := Run(s, rs);
      && KeyedByLicenseKey(e.licenses)
      && s.licenses.Keys <= e.licenses.Keys
      && forall k :: k in s.licenses ==> e.licenses[k].email == s.licenses[k].email
    decreases |rs|
  {
    if rs != [] {
      var r := rs[0];
      if r.WebhookRequest? {
        WebhookKeepsKeyed(s.licenses, r.event, r.email, r.licenseKey, r.nextCharge, r.now);
      }
      RunKeepsLicenses(Handle(s, r), rs[1..]);
    }
  }

  /** The caption log only grows: every run leaves the old log as a prefix. */
  lemma {:induction false} RunAppendsCaptions(s: Store, rs: seq<Request>)
    ensures s.captions <= Run(s, rs).captions
    decreases |rs|
  {
    if rs != [] {
      RunAppendsCaptions(Handle(s, rs[0]), rs[1..]);
    }
  }

  /** Generate requests never change the licenses table; as a corollary, the
      validity of every key at every instant is the same after them as before. */
  lemma {:induction false} GeneratesKeepLicenses(s: Store, rs: seq<Request>)
    requires forall i :: 0 <= i < |rs| ==> rs[i].GenerateRequest?
    ensures Run(s, rs).licenses == s.licenses
    ensures forall key, now :: Admits(Run(s, rs).licenses, key, now) == Admits(s.licenses, key, now)
    decreases |rs|
  {
    if rs != [] {
      GeneratesKeepLicenses(Handle(s, rs[0]), rs[1..]);
    }
  }

  /** Webhooks never change the caption log. */
  lemma {:induction false} WebhooksKeepCaptions(s: Store, rs: seq<Request>)
    requires forall i :: 0 <= i < |rs| ==> rs[i].WebhookRequest?
    ensures Run(s, rs).captions == s.captions
    decreases |rs|
  {
    if rs != [] {
      WebhooksKeepCaptions(Handle(s, rs[0]), rs[1..]);
    }
  }

  /** A key that no request of the run may change keeps its record, or its
      absence, through the whole run. */
  lemma {:induction false} RunFramesKey(s: Store, rs: seq<Request>, k: string)
    requires forall i :: 0 <= i < |rs| ==> !MayChange(rs[i], k)
    ensures var e := Run(s, rs);
      (k in e.licenses <==> k in s.licenses) && (k in s.licenses ==> e.licenses[k] == s.licenses[k])
    decreases |rs|
  {
    if rs != [] {
      var r := rs[0];
      assert !MayChange(r, k);
      if r.WebhookRequest? {
        WebhookFramesOtherKeys(s.licenses, r.event, r.email, r.licenseKey, r.nextCharge, r.now, k);
      }
      RunFramesKey(Handle(s, rs[0]), rs[1..], k);
    }
  }

  /** Only a `sale` creates a license: a key absent at the start of a run that
      carries no well-formed `sale` for it is still absent at the end. */
  lemma {:induction false} OnlySaleCreates(s: Store, rs: seq<Request>, k: string)
    requires k !in s.licenses
    requires forall i :: 0 <= i < |rs| ==> !IsSaleFor(rs[i], k)
    ensures k !in Run(s, rs).licenses
    decreases |rs|
  {
    if rs != [] {
      var r := rs[0];
      assert !IsSaleFor(r, k);
      if r.WebhookRequest? && !MayChange(r, k) {
        WebhookFramesOtherKeys(s.licenses, r.event, r.email, r.licenseKey, r.nextCharge, r.now, k);
      }
      OnlySaleCreates(Handle(s, rs[0]), rs[1..], k);
    }
  }

  /** Last write wins: after a `sale` for `k` with next charge date `until`,
      followed by any requests that do not touch `k`, the key is active until
      exactly `until`, whatever it held before. */
  lemma LastSaleWins(s: Store, email: string, k: string, until: int, now: int, rest: seq<Request>)
    requires email != "" && k != ""
    requires forall i :: 0 <= i < |rest| ==> !MayChange(rest[i], k)
    ensures var e := Run(s, [WebhookRequest(Some("sale"), Some(email), Some(k), Some(until), now)] + rest);
      k in e.licenses && e.licenses[k].activeUntil == until
  {
    var sale := WebhookRequest(Some("sale"), Some(email), Some(k), Some(until), now);
    var rs := [sale] + rest;
    assert rs[0] == sale && rs[1..] == rest;
    var s' := Handle(s, sale);
    SaleSetsActiveUntil(s.licenses, email, k, Some(until), now);
    RunFramesKey(s', rest, k);
  }
}
