/** The caption service as the handlers run it: one object holds the licenses
    table and the caption log, and each request updates them in place. */
module Server {
  import opened Records
  import opened Lifecycle

  class CaptionService {
    var licenses: LicenseTable
    var captions: seq<CaptionRecord>

    /** The uniqueness constraint on `license_key` holds of the table. */
    ghost predicate Valid()
      reads this
    {
      KeyedByLicenseKey(licenses)
    }

    /** An empty store: no license, no caption. */
    constructor ()
      ensures Valid()
      ensures licenses == map[] && captions == []
    {
      licenses := map[];
      captions := [];
    }

    /** `POST /generate`: check the license, then log the provider's reply. */
    method Generate(key: string, topic: string, tone: string, channel: string,
                    now: int, reply: ProviderReply) returns (response: GenerateResponse)
      requires Valid()
      modifies this
      ensures Valid()
      ensures licenses == old(licenses)
      ensures Generated(captions, response)
           == GenerateResult(old(licenses), old(captions), key, topic, tone, channel, now, reply)
    {
      if key !in licenses || licenses[key].activeUntil < now {
        return Forbidden;
      }
      match reply
      case ProviderError(detail) =>
        response := GenerationFailed(detail);
      case Reply(text) =>
        captions := captions + [CaptionRecord(topic, tone, channel, text)];
        response := Caption(text);
    }

    /** `POST /webhook`: check the required fields, then apply a `sale`, a
        `subscription_cancelled`, or ignore the event. */
    method Webhook(event: Option<string>, email: Option<string>, key: Option<string>,
                   nextCharge: Option<int>, now: int) returns (response: WebhookResponse)
      requires Valid()
      modifies this
      ensures Valid()
      ensures captions == old(captions)
      ensures Applied(licenses, response) == WebhookResult(old(licenses), event, email, key, nextCharge, now)
    {
      if !Given(event) || !Given(email) || !Given(key) {
        return MissingFields;
      }
      var k := key.value;
      if event.value == "sale" {
        var until := NewActiveUntil(nextCharge, now);
        if k in licenses {
          licenses := licenses[k := licenses[k].(activeUntil := until)];
        } else {
          licenses := licenses[k := License(email.value, k, until)];
        }
        response := SaleRecorded(until);
      } else if event.value == "subscription_cancelled" {
        if k in licenses {
          licenses := licenses[k := licenses[k].(activeUntil := now)];
        }
        response := Cancelled;
      } else {
        response := Ignored(event.value);
      }
    }
  }
}
