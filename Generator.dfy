/**
 * The application object of the message generator as far as it keeps state: the list of
 * complaint records (`self.complaints`), the webhook configuration (`self.webhooks`) and the
 * record the edit form is open on (`self.current_complaint`).
 *
 * The record the edit form is open on is a reference into the list in the program; here it
 * is its position, which deleting an earlier record moves up by one and deleting the record
 * itself clears.
 */
module Generator {
  import opened Wrappers
  import opened Text
  import opened Dicts
  import opened Delivery
  import opened Forms
  import opened Records
  import opened Collection
  import opened Webhooks

  /** What a Generate button does: shows an error, or copies, stores and sends a message. */
  datatype Submission =
    | Rejected(error: ValidationError)
    | Submitted(message: string, run: Run)

  /** What the Delete button does: nothing unless confirmed; `list.remove` can raise. */
  datatype Deletion = Cancelled | Removed(index: nat) | NoSuchRecord

  /** Every stored record is a real dict. */
  predicate RealDicts(cs: seq<Record>)
  {
    forall i :: 0 <= i < |cs| ==> UniqueKeys(cs[i])
  }

  /** The position the edit form is open on after the record at `removed` is deleted. */
  function AfterRemoval(selected: Option<nat>, removed: nat): (r: Option<nat>)
    ensures selected.None? ==> r.None?
    ensures selected.Some? && removed < selected.value ==> r == Some(selected.value - 1)
    ensures selected.Some? && removed == selected.value ==> r.None?
    ensures selected.Some? && removed > selected.value ==> r == selected
  {
    match selected
    case None => None
    case Some(s) => if removed < s then Some(s - 1) else if removed == s then None else selected
  }

  /**
   * The position follows its record through `list.remove`: after the record at `removed` is
   * dropped, the edit form is closed exactly when it was open on that record, and otherwise
   * its new position holds the same record as before.
   */
  lemma AfterRemovalFollows(cs: seq<Record>, p: nat, removed: nat)
    requires p < |cs| && removed < |cs|
    ensures var r := AfterRemoval(Some(p), removed);
      var rest := cs[..removed] + cs[removed + 1..];
      && (r.None? <==> p == removed)
      && (r.Some? ==> r.value < |rest| && rest[r.value] == cs[p])
  {
    var rest := cs[..removed] + cs[removed + 1..];
    if p < removed {
      assert rest[p] == cs[..removed][p];
    } else if removed < p {
      assert rest[p - 1] == cs[removed + 1..][p - 1 - removed];
    }
  }

  class App {
    var complaints: seq<Record>
    var webhooks: Config
    var selected: Option<nat>

    /** The edit form, when open, is open on a record of the list. */
    predicate Valid()
      reads this
    {
      selected.Some? ==> selected.value < |complaints|
    }

    /**
     * `__init__`: the records of `complaints.json` (none when it is missing or unreadable), the
     * webhook configuration of `load_webhooks`, and no record being edited.
     */
    constructor (storedComplaints: Option<seq<Record>>, storedWebhooks: Option<Config>)
      ensures Valid()
      ensures complaints == storedComplaints.GetOr([])
      ensures webhooks == LoadWebhooks(storedWebhooks)
      ensures selected == None
    {
      complaints := storedComplaints.GetOr([]);
      webhooks := LoadWebhooks(storedWebhooks);
      selected := None;
    }

    /** Appends a record and posts its message to the form's webhook. */
    method Submit(record: Record, message: string, recordType: string, outcome: nat -> Attempt)
      returns (s: Submission)
      requires Valid()
      modifies this
      ensures Valid()
      ensures complaints == old(complaints) + [record]
      ensures RealDicts(old(complaints)) && UniqueKeys(record) ==> RealDicts(complaints)
      ensures webhooks == old(webhooks) && selected == old(selected)
      ensures s == Submitted(message,
                             Deliver(message, WebhookUrl(webhooks, recordType), outcome, DefaultRetries, DefaultDelay))
    {
      complaints := complaints + [record];
      var success, trace := SendToWebhook(message, WebhookUrl(webhooks, recordType), outcome,
                                          DefaultRetries, DefaultDelay);
      s := Submitted(message, Run(success, trace));
    }

    /**
     * `generate_warning_message`: a rejected form changes nothing and sends nothing; an accepted
     * one appends its Warning record and posts its message to the "warning" webhook.
     */
    method GenerateWarning(f: WarningInput, clock: Clock, outcome: nat -> Attempt) returns (s: Submission)
      requires Valid()
      modifies this
      ensures Valid()
      ensures webhooks == old(webhooks) && selected == old(selected)
      ensures RealDicts(old(complaints)) ==> RealDicts(complaints)
      ensures ValidateWarning(f).Fail? ==>
        s == Rejected(ValidateWarning(f).error) && complaints == old(complaints)
      ensures ValidateWarning(f).Pass? ==>
        && complaints == old(complaints) + [WarningRecord(f, clock)]
        && s == Submitted(JoinLines(WarningLines(f, clock.display)),
                          Deliver(JoinLines(WarningLines(f, clock.display)), WebhookUrl(webhooks, WarningType),
                                  outcome, DefaultRetries, DefaultDelay))
    {
      var check := ValidateWarning(f);
      if check.Fail? {
        return Rejected(check.error);
      }
      var message := BuildWarningMessage(f, clock.display);
      WarningRecordShape(f, clock);
      s := Submit(WarningRecord(f, clock), message, WarningType, outcome);
    }

    /**
     * `generate_technical_message` on the typed entries `raw` (the mentions are stripped
     * first): rejected forms change nothing; an accepted one appends its Technical record and
     * posts to the "technical" webhook.
     */
    method GenerateTechnical(raw: TechnicalInput, labels: TechnicalLabels, isUrl: string -> bool,
                             clock: Clock, outcome: nat -> Attempt) returns (s: Submission)
      requires Valid()
      modifies this
      ensures Valid()
      ensures webhooks == old(webhooks) && selected == old(selected)
      ensures RealDicts(old(complaints)) ==> RealDicts(complaints)
      ensures var f := TrimMentions(raw);
        ValidateTechnical(f, isUrl).Fail? ==>
        s == Rejected(ValidateTechnical(f, isUrl).error) && complaints == old(complaints)
      ensures var f := TrimMentions(raw);
        ValidateTechnical(f, isUrl).Pass? ==>
        && complaints == old(complaints) + [TechnicalRecord(f, clock)]
        && s == Submitted(TechnicalMessage(f, labels),
                          Deliver(TechnicalMessage(f, labels), WebhookUrl(webhooks, TechnicalType),
                                  outcome, DefaultRetries, DefaultDelay))
    {
      var f := TrimMentions(raw);
      var check := ValidateTechnical(f, isUrl);
      if check.Fail? {
        return Rejected(check.error);
      }
      TechnicalRecordShape(f, clock);
      s := Submit(TechnicalRecord(f, clock), TechnicalMessage(f, labels), TechnicalType, outcome);
    }

    /** `generate_create_warn_message`: as the other forms, with the CreateWarn record and message. */
    method GenerateCreateWarn(f: PlayerInput, clock: Clock, outcome: nat -> Attempt) returns (s: Submission)
      requires Valid()
      modifies this
      ensures Valid()
      ensures webhooks == old(webhooks) && selected == old(selected)
      ensures RealDicts(old(complaints)) ==> RealDicts(complaints)
      ensures ValidatePlayer(f).Fail? ==>
        s == Rejected(ValidatePlayer(f).error) && complaints == old(complaints)
      ensures ValidatePlayer(f).Pass? ==>
        && complaints == old(complaints) + [CreateWarnRecord(f, clock)]
        && s == Submitted(CreateWarnMessage(f),
                          Deliver(CreateWarnMessage(f), WebhookUrl(webhooks, CreateWarnType),
                                  outcome, DefaultRetries, DefaultDelay))
    {
      var check := ValidatePlayer(f);
      if check.Fail? {
        return Rejected(check.error);
      }
      PlayerRecordShape(f, clock, CreateWarnType, BanTime);
      s := Submit(CreateWarnRecord(f, clock), CreateWarnMessage(f), CreateWarnType, outcome);
    }

    /** `generate_create_ban_message`: as the other forms, with the CreateBan record and message. */
    method GenerateCreateBan(f: PlayerInput, clock: Clock, outcome: nat -> Attempt) returns (s: Submission)
      requires Valid()
      modifies this
      ensures Valid()
      ensures webhooks == old(webhooks) && selected == old(selected)
      ensures RealDicts(old(complaints)) ==> RealDicts(complaints)
      ensures ValidatePlayer(f).Fail? ==>
        s == Rejected(ValidatePlayer(f).error) && complaints == old(complaints)
      ensures ValidatePlayer(f).Pass? ==>
        && complaints == old(complaints) + [CreateBanRecord(f, clock)]
        && s == Submitted(CreateBanMessage(f),
                          Deliver(CreateBanMessage(f), WebhookUrl(webhooks, CreateBanType),
                                  outcome, DefaultRetries, DefaultDelay))
    {
      var check := ValidatePlayer(f);
      if check.Fail? {
        return Rejected(check.error);
      }
      PlayerRecordShape(f, clock, CreateBanType, Evidence);
      s := Submit(CreateBanRecord(f, clock), CreateBanMessage(f), CreateBanType, outcome);
    }

    /** `save_webhooks`: the four URLs of the webhook screen replace the configured ones. */
    method SaveWebhooks(warning: string, technical: string, createWarn: string, createBan: string)
      requires Valid()
      modifies this
      ensures Valid()
      ensures complaints == old(complaints) && selected == old(selected)
      ensures webhooks == WithUrls(old(webhooks), warning, technical, createWarn, createBan)
    {
      webhooks := Set(webhooks, WarningType, warning);
      webhooks := Set(webhooks, TechnicalType, technical);
      webhooks := Set(webhooks, CreateWarnType, createWarn);
      webhooks := Set(webhooks, CreateBanType, createBan);
    }

    /**
     * `show_edit_complaint` on the record at position `q`: the edit form opens on it, filled
     * from it; `previousManual` is what the manual person-id entry held before.
     */
    method ShowEditComplaint(q: nat, previousManual: string) returns (form: EditInput)
      requires Valid() && q < |complaints|
      modifies this
      ensures Valid()
      ensures complaints == old(complaints) && webhooks == old(webhooks)
      ensures selected == Some(q)
      ensures form == Prefill(complaints[q], previousManual)
    {
      form := Prefill(complaints[q], previousManual);
      selected := Some(q);
    }

    /**
     * `save_edited_complaint`: nothing when no record is being edited (or it is the empty
     * dict); otherwise the eleven assignments on that record, in place, and nothing else.
     */
    method SaveEditedComplaint(e: EditInput)
      requires Valid()
      modifies this
      ensures Valid()
      ensures webhooks == old(webhooks) && selected == old(selected)
      ensures RealDicts(old(complaints)) ==> RealDicts(complaints)
      ensures selected.None? || old(complaints)[selected.value] == [] ==> complaints == old(complaints)
      ensures selected.Some? && old(complaints)[selected.value] != [] ==>
        complaints == old(complaints)[selected.value := ApplyEdit(old(complaints)[selected.value], e)]
    {
      if selected.None? || complaints[selected.value] == [] {
        return;
      }
      var i := selected.value;
      var c := AssignEdit(complaints[i], e);
      ApplyEditKeys(complaints[i], e);
      complaints := complaints[i := c];
    }

    /**
     * `export_to_csv`: refused on an empty list; otherwise `DictWriter` with the first record's
     * keys as the header, which raises at the first record with a key outside them, after the
     * rows before it are written. Where every record fits, this is the corrected export.
     */
    method ExportToCsv() returns (r: ExportResult)
      ensures r.NoComplaints? <==> complaints == []
      ensures complaints != [] ==> r.header == Keys(complaints[0])
      ensures r.Exported? <==>
        complaints != [] && forall i :: 0 <= i < |complaints| ==> Fits(Keys(complaints[0]), complaints[i])
      ensures r.Exported? ==> r.rows == Rows(Keys(complaints[0]), complaints)
      ensures r.ExtraFields? ==>
        && 0 < r.offending < |complaints| && !Fits(r.header, complaints[r.offending])
        && (forall i :: 0 <= i < r.offending ==> Fits(r.header, complaints[i]))
        && r.written == Rows(r.header, complaints[..r.offending])
      ensures r.Exported? && UniqueKeys(complaints[0]) ==> r == ExportAllColumns(complaints)
    {
      r := Export(complaints);
      ExportRule(complaints);
      if r.Exported? && UniqueKeys(complaints[0]) {
        ExportsAgreeWhenAllFit(complaints);
      }
    }

    /**
     * `delete_complaint(x)` after the confirmation dialog: `self.complaints.remove(x)`, which
     * raises when no record equals `x`. The edit form follows its record.
     */
    method DeleteComplaint(x: Record, confirmed: bool) returns (d: Deletion)
      requires Valid()
      modifies this
      ensures Valid()
      ensures webhooks == old(webhooks)
      ensures RealDicts(old(complaints)) ==> RealDicts(complaints)
      ensures !confirmed ==> d == Cancelled && complaints == old(complaints) && selected == old(selected)
      ensures confirmed && RemoveFirst(old(complaints), x).None? ==>
        d == NoSuchRecord && complaints == old(complaints) && selected == old(selected)
      ensures confirmed && RemoveFirst(old(complaints), x).Some? ==>
        && d == Removed(IndexOfFirst(old(complaints), x).value)
        && complaints == RemoveFirst(old(complaints), x).value
        && selected == AfterRemoval(old(selected), d.index)
        && (old(selected).Some? ==>
              (selected.None? <==> old(selected).value == d.index)
              && (selected.Some? ==> complaints[selected.value] == old(complaints)[old(selected).value]))
    {
      if !confirmed {
        return Cancelled;
      }
      var found := IndexOfFirst(complaints, x);
      if found.None? {
        return NoSuchRecord;
      }
      var i := found.value;
      RemoveFirstDropsOne(complaints, x);
      if selected.Some? {
        AfterRemovalFollows(complaints, selected.value, i);
      }
      complaints := complaints[..i] + complaints[i + 1..];
      selected := AfterRemoval(selected, i);
      d := Removed(i);
    }
  }
}
