/**
 * Quote versioning (backend/server.py and backend/app/initialization.py):
 * every edit through PUT /quotes/{id} and every restore first stores a
 * snapshot of the quote row in quote_versions, tagged with the version the
 * quote had before the change, and then bumps the version. Applying a
 * template and changing the status write the quote row without a snapshot.
 *
 * `QuoteStore` holds the two tables these operations touch: the quote rows,
 * by id, and the quote_versions rows, in insertion order.
 */
module Versioning {
  import opened Wrappers
  import opened QuoteData

  /**
   * The columns of a quote row that the versioning operations read or write.
   * The read endpoints' `QuoteData.Quote` carries the row's child rows
   * instead of these columns; the two share the nullable columns' types.
   * Status, default markup, tax rate and tax flag are nullable (None is a
   * NULL); the other columns are NOT NULL or already optional.
   */
  datatype QuoteRecord = QuoteRecord(
    name: string,
    clientName: string,
    departmentId: int,
    companyId: Option<int>,
    contactId: Option<int>,
    projectAddress: Option<string>,
    description: Option<string>,
    status: Option<string>,
    markupDefault: Option<real>,
    taxRate: Option<real>,
    taxEnabled: Option<bool>,
    version: int)

  /**
   * The part of a stored snapshot that a restore reads. A key read with a
   * default is None when absent from the stored JSON and Some(None) when it
   * holds null; `description` is read without a default, so absent and null
   * are both None.
   */
  datatype Snapshot = Snapshot(
    name: string,
    clientName: string,
    description: Option<string>,
    markupDefault: Option<Option<real>>,
    taxRate: Option<Option<real>>,
    taxEnabled: Option<Option<bool>>)

  /** A quote_versions row. */
  datatype VersionRow = VersionRow(quoteId: int, version: int, data: Snapshot, changedBy: int)

  /** The snapshot of a quote row as the JSON dump of the whole row stores it: every key present. */
  function SnapshotOf(q: QuoteRecord): (s: Snapshot)
    ensures s.markupDefault == Some(q.markupDefault) && s.taxRate == Some(q.taxRate)
    ensures s.taxEnabled == Some(q.taxEnabled)
  {
    Snapshot(q.name, q.clientName, q.description, Some(q.markupDefault), Some(q.taxRate), Some(q.taxEnabled))
  }

  /** The history row `record_quote_snapshot` inserts for a quote row. */
  function SnapshotRow(quoteId: int, q: QuoteRecord, changedBy: int): (row: VersionRow)
    ensures row.quoteId == quoteId && row.version == q.version && row.changedBy == changedBy
  {
    VersionRow(quoteId, q.version, SnapshotOf(q), changedBy)
  }

  // ---------------------------------------------------------------------------
  // PUT /quotes/{id}

  /** A field of a request body: left out, or sent with a value. */
  datatype Patch<T> = Unset | Set(value: T) {
    function ApplyTo(current: T): T {
      if Set? then value else current
    }
  }

  /**
   * The body of PUT /quotes/{id}: only the fields the client sends are
   * written, and a field sent as null writes NULL.
   */
  datatype QuoteUpdate = QuoteUpdate(
    name: Patch<string>,
    clientName: Patch<string>,
    departmentId: Patch<int>,
    companyId: Patch<Option<int>>,
    contactId: Patch<Option<int>>,
    projectAddress: Patch<Option<string>>,
    description: Patch<Option<string>>,
    status: Patch<Option<string>>,
    markupDefault: Patch<Option<real>>,
    taxRate: Patch<Option<real>>,
    taxEnabled: Patch<Option<bool>>)

  predicate NoFieldsSet(u: QuoteUpdate) {
    && u.name.Unset? && u.clientName.Unset? && u.departmentId.Unset? && u.companyId.Unset?
    && u.contactId.Unset? && u.projectAddress.Unset? && u.description.Unset? && u.status.Unset?
    && u.markupDefault.Unset? && u.taxRate.Unset? && u.taxEnabled.Unset?
  }

  /**
   * The quote row after an update: every sent field written, the others kept,
   * and the version bumped by one only when at least one field was sent.
   */
  function Updated(q: QuoteRecord, u: QuoteUpdate): (r: QuoteRecord)
    ensures NoFieldsSet(u) ==> r == q
    ensures !NoFieldsSet(u) ==> r.version == q.version + 1
    ensures u.name.Unset? ==> r.name == q.name
    ensures u.name.Set? ==> r.name == u.name.value
    ensures u.clientName.Unset? ==> r.clientName == q.clientName
    ensures u.clientName.Set? ==> r.clientName == u.clientName.value
    ensures u.departmentId.Unset? ==> r.departmentId == q.departmentId
    ensures u.departmentId.Set? ==> r.departmentId == u.departmentId.value
    ensures u.companyId.Unset? ==> r.companyId == q.companyId
    ensures u.companyId.Set? ==> r.companyId == u.companyId.value
    ensures u.contactId.Unset? ==> r.contactId == q.contactId
    ensures u.contactId.Set? ==> r.contactId == u.contactId.value
    ensures u.projectAddress.Unset? ==> r.projectAddress == q.projectAddress
    ensures u.projectAddress.Set? ==> r.projectAddress == u.projectAddress.value
    ensures u.description.Unset? ==> r.description == q.description
    ensures u.description.Set? ==> r.description == u.description.value
    ensures u.status.Unset? ==> r.status == q.status
    ensures u.status.Set? ==> r.status == u.status.value
    ensures u.markupDefault.Unset? ==> r.markupDefault == q.markupDefault
    ensures u.markupDefault.Set? ==> r.markupDefault == u.markupDefault.value
    ensures u.taxRate.Unset? ==> r.taxRate == q.taxRate
    ensures u.taxRate.Set? ==> r.taxRate == u.taxRate.value
    ensures u.taxEnabled.Unset? ==> r.taxEnabled == q.taxEnabled
    ensures u.taxEnabled.Set? ==> r.taxEnabled == u.taxEnabled.value
  {
    if NoFieldsSet(u) then q
    else QuoteRecord(
      u.name.ApplyTo(q.name), u.clientName.ApplyTo(q.clientName), u.departmentId.ApplyTo(q.departmentId),
      u.companyId.ApplyTo(q.companyId), u.contactId.ApplyTo(q.contactId),
      u.projectAddress.ApplyTo(q.projectAddress), u.description.ApplyTo(q.description),
      u.status.ApplyTo(q.status), u.markupDefault.ApplyTo(q.markupDefault), u.taxRate.ApplyTo(q.taxRate),
      u.taxEnabled.ApplyTo(q.taxEnabled), q.version + 1)
  }

  /** Sending the same fields twice leaves the row as the first time, one version further on. */
  lemma UpdateIdempotentButForVersion(q: QuoteRecord, u: QuoteUpdate)
    ensures Updated(Updated(q, u), u) == if NoFieldsSet(u) then q else Updated(q, u).(version := q.version + 2)
  {
  }

  /** The update endpoint writes any status it is sent; only the status endpoint checks it. */
  lemma UpdateAcceptsAnyStatus(q: QuoteRecord, status: string)
    ensures Updated(q, QuoteUpdate(Unset, Unset, Unset, Unset, Unset, Unset, Unset, Set(Some(status)),
                                   Unset, Unset, Unset)).status == Some(status)
  {
  }

  /**
   * A tax rate sent as null is stored as NULL, and the row is then one the
   * financial breakdown fails on whenever tax is charged.
   */
  lemma UpdateStoresExplicitNull(q: QuoteRecord)
    ensures var r := Updated(q, QuoteUpdate(Unset, Unset, Unset, Unset, Unset, Unset, Unset, Unset,
                                             Unset, Set(None), Unset));
      r.taxRate.None? && r.version == q.version + 1 && r.taxEnabled == q.taxEnabled
  {
  }

  // ---------------------------------------------------------------------------
  // POST /quotes/{id}/restore-version/{version}

  /** The snapshot of the first row, in insertion order, with the quote id and version tag. */
  function FindVersion(rows: seq<VersionRow>, quoteId: int, version: int): (found: Option<Snapshot>)
    ensures found.None? <==> forall i :: 0 <= i < |rows| ==> !(rows[i].quoteId == quoteId && rows[i].version == version)
    ensures found.Some? ==> exists i :: 0 <= i < |rows| && rows[i].quoteId == quoteId && rows[i].version == version
                                     && rows[i].data == found.value
                                     && forall j :: 0 <= j < i ==> !(rows[j].quoteId == quoteId && rows[j].version == version)
  {
    if |rows| == 0 then None
    else if rows[0].quoteId == quoteId && rows[0].version == version then Some(rows[0].data)
    else
      var rest := FindVersion(rows[1..], quoteId, version);
      assert forall i :: 1 <= i < |rows| ==> rows[i] == rows[1..][i - 1];
      rest
  }

  /**
   * The quote row after a restore: name, client name, description, markup,
   * tax rate and tax flag from the snapshot (the last three defaulting to
   * 20.0, 0.0 and false when the key is absent, and NULL when it holds null),
   * everything else kept, version bumped.
   */
  function Restored(q: QuoteRecord, s: Snapshot): (r: QuoteRecord)
    ensures r.version == q.version + 1
    ensures r.status == q.status && r.departmentId == q.departmentId && r.companyId == q.companyId
    ensures r.contactId == q.contactId && r.projectAddress == q.projectAddress
    ensures r.name == s.name && r.clientName == s.clientName && r.description == s.description
    ensures s.markupDefault.Some? ==> r.markupDefault == s.markupDefault.value
    ensures s.taxRate.Some? ==> r.taxRate == s.taxRate.value
    ensures s.taxEnabled.Some? ==> r.taxEnabled == s.taxEnabled.value
    ensures s.markupDefault.None? ==> r.markupDefault == Some(20.0)
    ensures s.taxRate.None? ==> r.taxRate == Some(0.0)
    ensures s.taxEnabled.None? ==> r.taxEnabled == Some(false)
  {
    q.(name := s.name, clientName := s.clientName, description := s.description,
       markupDefault := s.markupDefault.GetOr(Some(20.0)), taxRate := s.taxRate.GetOr(Some(0.0)),
       taxEnabled := s.taxEnabled.GetOr(Some(false)), version := q.version + 1)
  }

  /**
   * Restoring a snapshot brings back the six restored fields as they were when
   * it was taken, whatever has happened to the row since.
   */
  lemma RestoreRoundTrip(snapshotted: QuoteRecord, current: QuoteRecord)
    ensures var r := Restored(current, SnapshotOf(snapshotted));
      && r.name == snapshotted.name && r.clientName == snapshotted.clientName
      && r.description == snapshotted.description && r.markupDefault == snapshotted.markupDefault
      && r.taxRate == snapshotted.taxRate && r.taxEnabled == snapshotted.taxEnabled
  {
  }

  /** Restoring right after an edit undoes it on the six restored fields. */
  lemma RestoreUndoesUpdate(q: QuoteRecord, u: QuoteUpdate)
    requires u.departmentId.Unset? && u.companyId.Unset? && u.contactId.Unset?
    requires u.projectAddress.Unset? && u.status.Unset?
    ensures Restored(Updated(q, u), SnapshotOf(q)) == q.(version := Updated(q, u).version + 1)
  {
  }

  /**
   * A snapshot stored without the defaulted keys restores markup 20.0, tax
   * rate 0.0 and tax off; one holding null under them restores NULL, not
   * the default.
   */
  lemma RestoreDefaults(q: QuoteRecord, name: string, clientName: string)
    ensures var r := Restored(q, Snapshot(name, clientName, None, None, None, None));
      r.markupDefault == Some(20.0) && r.taxRate == Some(0.0) && r.taxEnabled == Some(false)
      && r.description.None?
    ensures var r := Restored(q, Snapshot(name, clientName, None, Some(None), Some(None), Some(None)));
      r.markupDefault.None? && r.taxRate.None? && r.taxEnabled.None?
  {
  }

  /**
   * Version tags can repeat: an update that sends no field stores a snapshot
   * but keeps the version, and a restore of that tag then finds the older
   * snapshot, not the newer one.
   */
  lemma RepeatedTagRestoresOldest(quoteId: int, q: QuoteRecord, later: QuoteRecord, user: int)
    requires later.version == q.version && SnapshotOf(later) != SnapshotOf(q)
    ensures var rows := [SnapshotRow(quoteId, q, user), SnapshotRow(quoteId, later, user)];
      && rows[0].version == rows[1].version
      && FindVersion(rows, quoteId, q.version) == Some(SnapshotOf(q))
  {
  }

  // ---------------------------------------------------------------------------
  // POST /quotes/{id}/apply-template/{template_id} and PUT /quotes/{id}/status

  /** The tax settings a template stores: a key may be absent (None) or hold null (Some(None)). */
  datatype TaxSettings = TaxSettings(taxRate: Option<Option<real>>, taxEnabled: Option<Option<bool>>)

  datatype Template = Template(services: seq<Service>, labor: seq<Labor>, taxSettings: TaxSettings)

  /** The quote row after a template is applied: tax rate and flag only, defaulting to 0 and false. */
  function WithTemplateTax(q: QuoteRecord, t: TaxSettings): (r: QuoteRecord)
    ensures r == q.(taxRate := r.taxRate, taxEnabled := r.taxEnabled)
    ensures t.taxRate.None? ==> r.taxRate == Some(0.0)
    ensures t.taxRate.Some? ==> r.taxRate == t.taxRate.value
    ensures t.taxEnabled.None? ==> r.taxEnabled == Some(false)
    ensures t.taxEnabled.Some? ==> r.taxEnabled == t.taxEnabled.value
  {
    q.(taxRate := t.taxRate.GetOr(Some(0.0)), taxEnabled := t.taxEnabled.GetOr(Some(false)))
  }

  const ValidStatuses: seq<string> := ["draft", "pending", "approved", "rejected", "revision"]

  /** The status endpoint accepts exactly draft, pending, approved, rejected and revision. */
  lemma ValidStatusesAreFive(status: string)
    ensures |ValidStatuses| == 5
    ensures status in ValidStatuses <==>
      status == "draft" || status == "pending" || status == "approved" || status == "rejected" || status == "revision"
  {
  }

  // ---------------------------------------------------------------------------
  // The store

  class QuoteStore {
    var quotes: map<int, QuoteRecord>
    var versions: seq<VersionRow>

    /** Every history row belongs to a stored quote: the foreign key deletes a quote's history with it. */
    ghost predicate Valid()
      reads this
    {
      forall i :: 0 <= i < |versions| ==> versions[i].quoteId in quotes
    }

    constructor(quotes: map<int, QuoteRecord>)
      ensures this.quotes == quotes && versions == []
      ensures Valid()
    {
      this.quotes := quotes;
      versions := [];
    }

    /**
     * `record_quote_snapshot`: appends one history row holding the quote row
     * under its current version, or nothing when the quote is missing; the
     * quote rows are never written.
     */
    method RecordQuoteSnapshot(quoteId: int, changedBy: int)
      modifies this
      ensures quotes == old(quotes)
      ensures quoteId in quotes ==> versions == old(versions) + [SnapshotRow(quoteId, quotes[quoteId], changedBy)]
      ensures quoteId !in quotes ==> versions == old(versions)
      ensures old(Valid()) ==> Valid()
    {
      if quoteId in quotes {
        versions := versions + [SnapshotRow(quoteId, quotes[quoteId], changedBy)];
      }
    }

    /**
     * PUT /quotes/{id}: NotFound before any write for a missing quote;
     * otherwise a snapshot under the version before the update, then the sent
     * fields written and the version bumped if any field was sent.
     */
    method UpdateQuote(quoteId: int, u: QuoteUpdate, user: int) returns (r: Result<(), ApiError>)
      modifies this
      ensures quoteId !in old(quotes) ==> r == Failure(NotFound) && quotes == old(quotes) && versions == old(versions)
      ensures quoteId in old(quotes) ==>
        && r == Success(())
        && versions == old(versions) + [SnapshotRow(quoteId, old(quotes)[quoteId], user)]
        && quotes == old(quotes)[quoteId := Updated(old(quotes)[quoteId], u)]
      ensures old(Valid()) ==> Valid()
    {
      if quoteId !in quotes {
        return Failure(NotFound);
      }
      RecordQuoteSnapshot(quoteId, user);
      if !NoFieldsSet(u) {
        quotes := quotes[quoteId := Updated(quotes[quoteId], u)];
      }
      return Success(());
    }

    /**
     * POST /quotes/{id}/restore-version/{version}: NotFound and no write when
     * no history row has the tag; otherwise a snapshot of the current row,
     * then the restored fields written and the version bumped. A tagged row
     * whose quote is gone fails like the code, on indexing the missing row,
     * which the foreign key rules out.
     */
    method RestoreQuoteVersion(quoteId: int, version: int, user: int) returns (r: Result<(), ApiError>)
      modifies this
      ensures FindVersion(old(versions), quoteId, version).None? ==>
        r == Failure(NotFound) && quotes == old(quotes) && versions == old(versions)
      ensures FindVersion(old(versions), quoteId, version).Some? && quoteId !in old(quotes) ==>
        r == Failure(ServerError) && quotes == old(quotes) && versions == old(versions)
      ensures FindVersion(old(versions), quoteId, version).Some? && quoteId in old(quotes) ==>
        && r == Success(())
        && versions == old(versions) + [SnapshotRow(quoteId, old(quotes)[quoteId], user)]
        && quotes == old(quotes)[quoteId := Restored(old(quotes)[quoteId],
                                                     FindVersion(old(versions), quoteId, version).value)]
      ensures old(Valid()) ==> Valid() && r != Failure(ServerError)
    {
      var found := FindVersion(versions, quoteId, version);
      if found.None? {
        return Failure(NotFound);
      }
      if quoteId !in quotes {
        return Failure(ServerError);
      }
      RecordQuoteSnapshot(quoteId, user);
      quotes := quotes[quoteId := Restored(quotes[quoteId], found.value)];
      return Success(());
    }

    /**
     * POST /quotes/{id}/apply-template/{template_id}: NotFound for a missing
     * template; otherwise the quote's tax settings are overwritten (a missing
     * quote is silently left alone), with no snapshot and no version bump, and
     * the template's lists are returned as stored.
     */
    method ApplyTemplate(quoteId: int, templates: map<int, Template>, templateId: int)
      returns (r: Result<Template, ApiError>)
      modifies this
      ensures templateId !in templates ==> r == Failure(NotFound) && quotes == old(quotes)
      ensures templateId in templates ==>
        && r == Success(templates[templateId])
        && quotes == if quoteId in old(quotes)
                     then old(quotes)[quoteId := WithTemplateTax(old(quotes)[quoteId], templates[templateId].taxSettings)]
                     else old(quotes)
      ensures versions == old(versions)
      ensures old(Valid()) ==> Valid()
    {
      if templateId !in templates {
        return Failure(NotFound);
      }
      var t := templates[templateId];
      if quoteId in quotes {
        quotes := quotes[quoteId := WithTemplateTax(quotes[quoteId], t.taxSettings)];
      }
      return Success(t);
    }

    /**
     * PUT /quotes/{id}/status: BadRequest for a status outside the five
     * known ones; otherwise the status is written (a missing quote is
     * silently left alone), with no snapshot and no version bump.
     */
    method UpdateQuoteStatus(quoteId: int, status: string) returns (r: Result<string, ApiError>)
      modifies this
      ensures status !in ValidStatuses ==> r == Failure(BadRequest) && quotes == old(quotes)
      ensures status in ValidStatuses ==>
        && r == Success(status)
        && quotes == if quoteId in old(quotes) then old(quotes)[quoteId := old(quotes)[quoteId].(status := Some(status))]
                     else old(quotes)
      ensures versions == old(versions)
      ensures old(Valid()) ==> Valid()
    {
      if status !in ValidStatuses {
        return Failure(BadRequest);
      }
      if quoteId in quotes {
        quotes := quotes[quoteId := quotes[quoteId].(status := Some(status))];
      }
      return Success(status);
    }
  }

  /** Each operation's new version of a quote is never below the old one. */
  lemma VersionNeverDecreases(q: QuoteRecord, u: QuoteUpdate, s: Snapshot, t: TaxSettings)
    ensures q.version <= Updated(q, u).version <= q.version + 1
    ensures Restored(q, s).version == q.version + 1
    ensures WithTemplateTax(q, t).version == q.version
  {
  }
}
