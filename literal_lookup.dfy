/** The license lookups of main.py read literally.

    Each lookup runs a Core select on the `licenses` table and takes
    `scalar_one_or_none()` of the result. That gives the FIRST COLUMN of the
    matching row, which is the integer `id` primary key, not a record. The
    handlers then read or assign `active_until` on that integer, which raises
    an attribute error; the service answers 500 and commits nothing. The rest of
    the model follows the evident intent, "find the record with this key"
    (`Lifecycle.GenerateResult`, `Lifecycle.WebhookResult`); this module shows
    what the code as written does instead. */
module LiteralLookup {
  import opened Records
  import opened Lifecycle

  /** A stored row of `licenses` with its `id` column, the table's first. */
  datatype Row = Row(id: int, license: License)

  /** The rows as the database holds them, by `license_key`. */
  type RowTable = map<string, Row>

  /** Autoincrement ids start at 1. */
  ghost predicate AutoIncrementIds(rows: RowTable) {
    forall k :: k in rows ==> rows[k].id >= 1
  }

  /** The same table without the `id` column: what the intended lookup sees. */
  function WithoutIds(rows: RowTable): LicenseTable {
    map k | k in rows :: rows[k].license
  }

  /** `scalar_one_or_none()` on the select: the matching row's first column. */
  function ScalarOneOrNone(rows: RowTable, key: string): Option<int> {
    if key in rows then Some(rows[key].id) else None
  }

  /** What a handler does with the looked-up value. */
  datatype Outcome = Refused | Admitted | AttributeError | Inserted | NoChange | UniqueViolation

  /** The gate of `generate` as written: `not lic` on the integer (true only
      for 0), then `lic.active_until` on it. */
  function GateAsWritten(rows: RowTable, key: string, now: int): Outcome {
    match ScalarOneOrNone(rows, key)
    case None => Refused
    case Some(id) => if id == 0 then Refused else AttributeError
  }

  /** The lookup of a well-formed `sale` or `subscription_cancelled` as
      written: `if lic:` on the integer, then assigning `lic.active_until`.
      A row whose id is 0 reads as "no record": a `sale` then adds a second
      row with the same key, which the unique `license_key` column refuses,
      and a cancellation changes nothing. */
  function RenewOrCancelAsWritten(rows: RowTable, key: string, isSale: bool): Outcome {
    match ScalarOneOrNone(rows, key)
    case None => if isSale then Inserted else NoChange
    case Some(id) =>
      if id != 0 then AttributeError
      else if isSale then UniqueViolation
      else NoChange
  }

  /** As written, the gate admits no request at all (no branch of
      `GateAsWritten` admits), and every stored key fails with an attribute
      error, however far its `active_until` lies ahead. */
  lemma GateAsWrittenNeverAdmits(rows: RowTable, key: string, now: int)
    requires AutoIncrementIds(rows)
    ensures GateAsWritten(rows, key, now) != Admitted
    ensures key in rows ==> GateAsWritten(rows, key, now) == AttributeError
  {
  }

  /** A paid-up license, stored with id 1 and active until 100: at instant 0
      the intended gate admits it and a caption is logged, the gate as written fails. */
  lemma PaidLicenseFailsAsWritten()
    ensures var rows := map["key-1" := Row(1, License("buyer@example.com", "key-1", 100))];
      && GateAsWritten(rows, "key-1", 0) == AttributeError
      && GenerateResult(WithoutIds(rows), [], "key-1", "t", "fun", "x", 0, Reply("hi")).response == Caption("hi")
  {
  }

  /** As written, a `sale` or a cancellation for a stored key fails with an
      attribute error: a license can be created once and never renewed nor
      cancelled. The intended transitions update the stored record. */
  lemma RenewOrCancelAsWrittenFails(rows: RowTable, email: string, key: string, nextCharge: Option<int>, now: int)
    requires AutoIncrementIds(rows) && key in rows
    requires email != "" && key != ""
    ensures RenewOrCancelAsWritten(rows, key, true) == AttributeError
    ensures RenewOrCancelAsWritten(rows, key, false) == AttributeError
    ensures var t := WithoutIds(rows);
      && WebhookResult(t, Some("sale"), Some(email), Some(key), nextCharge, now).licenses[key].activeUntil
         == NewActiveUntil(nextCharge, now)
      && WebhookResult(t, Some("subscription_cancelled"), Some(email), Some(key), nextCharge, now).licenses[key].activeUntil
         == now
  {
  }
}
