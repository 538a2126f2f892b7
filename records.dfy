/** The two tables of the caption service's store, as values.

    A `License` is a row of the `licenses` table and a `CaptionRecord` a row of
    `caption_records`. The `id` primary keys and the `created_at` columns are
    assigned by the database and are not part of these values; the table of
    licenses is a map indexed by the unique `license_key` column. */
module Records {

  datatype Option<+T> = None | Some(value: T)

  /** A row of `licenses`: who bought it, its key, and the instant (in seconds)
      until which it grants access. */
  datatype License = License(email: string, licenseKey: string, activeUntil: int)

  /** A row of `caption_records`: the request's three fields and the generated text. */
  datatype CaptionRecord = CaptionRecord(topic: string, tone: string, channel: string, caption: string)

  /** The licenses table, looked up by exact `license_key`. */
  type LicenseTable = map<string, License>

  /** The uniqueness constraint on `license_key`: the one record found under a
      key is the record that carries that key. */
  ghost predicate KeyedByLicenseKey(t: LicenseTable) {
    forall k :: k in t ==> t[k].licenseKey == k
  }

  /** The whole store: the licenses table and the append-only caption log. */
  datatype Store = Store(licenses: LicenseTable, captions: seq<CaptionRecord>)
}
