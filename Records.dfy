/**
 * The complaint records the handlers append to `self.complaints`, their keys, and the edit
 * form that rewrites one of them (`show_edit_complaint` / `save_edited_complaint`).
 */
module Records {
  import opened Wrappers
  import opened Text
  import opened Dicts
  import Forms

  // ---------------------------------------------------------------- record keys

  /**
   * The keys of a complaint record. Every key the program itself writes has its own
   * constructor; a key of any other name, which only a hand-edited `complaints.json` can hold,
   * is `Other(name)`.
   */
  datatype Field =
    | Id | Type | Timestamp
    | DiscordId | PersonInfo | WarnBan | PersonId | Violation | DecisionSource
    | ComplainantMention | ComplainantClip | AccusedMention | AccusedClip | BanLink
    | PlayerDiscordId | PlayerInfo | Reason | BanTime | Evidence | IsBanned
    | Other(name: string)

  /** The JSON key (and CSV column name) of a field. */
  function FieldName(k: Field): string
  {
    match k
    case Id => "id"
    case Type => "type"
    case Timestamp => "timestamp"
    case DiscordId => "discord_id"
    case PersonInfo => "person_info"
    case WarnBan => "warn_ban"
    case PersonId => "person_id"
    case Violation => "violation"
    case DecisionSource => "decision_source"
    case ComplainantMention => "complainant_mention"
    case ComplainantClip => "complainant_clip"
    case AccusedMention => "accused_mention"
    case AccusedClip => "accused_clip"
    case BanLink => "ban_link"
    case PlayerDiscordId => "player_discord_id"
    case PlayerInfo => "player_info"
    case Reason => "reason"
    case BanTime => "ban_time"
    case Evidence => "evidence"
    case IsBanned => "is_banned"
    case Other(name) => name
  }

  /**
   * The program's own keys have distinct names, so a record the program writes never holds
   * one JSON key under two fields.
   */
  lemma FieldNameInjective(k1: Field, k2: Field)
    requires !k1.Other? && !k2.Other?
    ensures FieldName(k1) == FieldName(k2) <==> k1 == k2
  {
    if k1 != k2 {
      var n1, n2 := FieldName(k1), FieldName(k2);
      assert |n1| != |n2| || n1[0] != n2[0] || n1[1] != n2[1] || n1[2] != n2[2]
          || n1[|n1| - 1] != n2[|n2| - 1];
    }
  }

  /** A complaint record: a dict from fields to strings. */
  type Record = Dict<Field>

  /**
   * The two readings of the clock a handler stores: the record id (`%Y%m%d%H%M%S`) and the
   * display timestamp (`%m/%d %I:%M %p`, lower-cased).
   */
  datatype Clock = Clock(id: string, display: string)

  /** The record types; each is also the key of that form's webhook URL. */
  const WarningType: string := "warning"
  const TechnicalType: string := "technical"
  const CreateWarnType: string := "create_warn"
  const CreateBanType: string := "create_ban"

  // ---------------------------------------------------------------- records of the four handlers

  /** The record `generate_warning_message` appends, keys in its order. */
  function WarningRecord(f: Forms.WarningInput, clock: Clock): Record
  {
    [(Id, clock.id), (Type, WarningType), (DiscordId, f.discordId), (PersonInfo, f.personInfo),
     (WarnBan, f.warnBan), (PersonId, Forms.PersonId(f.personStatus, f.personIdManual)),
     (Violation, f.violation), (DecisionSource, f.decisionSource), (Timestamp, clock.display)]
  }

  /**
   * A Technical record stores a mention as the `<@id>` text of the message with the
   * characters `<`, `@`, `>` stripped off both ends; for a digit id that gives back the id.
   */
  function StoredMention(id: string): (r: string)
    ensures IsDigits(id) ==> r == id
  {
    var r := StripChars(Mention(id), MentionChars);
    assert IsDigits(id) ==> r == id by {
      if IsDigits(id) { MentionStripRoundTrip(id); }
    }
    r
  }

  /** The record `generate_technical_message` appends. */
  function TechnicalRecord(f: Forms.TechnicalInput, clock: Clock): Record
  {
    TechnicalEntries(StoredMention(f.complainantMention), f.complainantClip,
                     StoredMention(f.accusedMention), f.accusedClip, f.banLink, clock)
  }

  /** The entries of a Technical record, keys in the order the handler writes them. */
  function TechnicalEntries(complainant: string, complainantClip: string, accused: string,
                            accusedClip: string, banLink: string, clock: Clock): Record
  {
    [(Id, clock.id), (Type, TechnicalType),
     (ComplainantMention, complainant), (ComplainantClip, complainantClip),
     (AccusedMention, accused), (AccusedClip, accusedClip),
     (BanLink, banLink), (Timestamp, clock.display)]
  }

  /** The record of a player form; `detail` is `BanTime` on CreateWarn and `Evidence` on CreateBan. */
  function PlayerRecord(f: Forms.PlayerInput, clock: Clock, recordType: string, detail: Field): Record
  {
    [(Id, clock.id), (Type, recordType), (PlayerDiscordId, f.playerDiscordId),
     (PlayerInfo, f.playerInfo), (Reason, f.reason), (detail, f.detail),
     (IsBanned, f.isBanned), (Timestamp, clock.display)]
  }

  /** The record `generate_create_warn_message` appends. */
  function CreateWarnRecord(f: Forms.PlayerInput, clock: Clock): Record
  {
    PlayerRecord(f, clock, CreateWarnType, BanTime)
  }

  /** The record `generate_create_ban_message` appends. */
  function CreateBanRecord(f: Forms.PlayerInput, clock: Clock): Record
  {
    PlayerRecord(f, clock, CreateBanType, Evidence)
  }

  /** A record starts with its id and type and ends with its timestamp. */
  predicate Framed(r: Record, recordType: string, clock: Clock)
  {
    |r| >= 3 && r[0] == (Id, clock.id) && r[1] == (Type, recordType)
    && r[|r| - 1] == (Timestamp, clock.display)
  }

  /** A Warning record is a real dict (no key twice), framed by id, type "warning" and timestamp. */
  lemma WarningRecordShape(f: Forms.WarningInput, clock: Clock)
    ensures UniqueKeys(WarningRecord(f, clock)) && Framed(WarningRecord(f, clock), WarningType, clock)
  {
    EntryKeysDistinct(WarningRecord(f, clock));
  }

  /** The keys of a Warning record, in the order the handler writes them. */
  lemma WarningRecordKeys(f: Forms.WarningInput, clock: Clock)
    ensures Keys(WarningRecord(f, clock))
         == [Id, Type, DiscordId, PersonInfo, WarnBan, PersonId, Violation, DecisionSource, Timestamp]
  {
    var r := WarningRecord(f, clock);
    forall i | 0 <= i < |r| ensures Keys(r)[i] == r[i].0 {
      KeysAt(r, i);
    }
  }

  /** Every entry of the Warning form is stored under its own key. */
  lemma WarningRecordFields(f: Forms.WarningInput, clock: Clock)
    ensures var r := WarningRecord(f, clock);
      && Get(r, Type) == Some(WarningType)
      && Get(r, DiscordId) == Some(f.discordId)
      && Get(r, PersonInfo) == Some(f.personInfo)
      && Get(r, WarnBan) == Some(f.warnBan)
      && Get(r, PersonId) == Some(Forms.PersonId(f.personStatus, f.personIdManual))
      && Get(r, Violation) == Some(f.violation)
      && Get(r, DecisionSource) == Some(f.decisionSource)
      && Get(r, Timestamp) == Some(clock.display)
  {
    var r := WarningRecord(f, clock);
    WarningRecordShape(f, clock);
    GetAt(r, 1); GetAt(r, 2); GetAt(r, 3); GetAt(r, 4); GetAt(r, 5); GetAt(r, 6); GetAt(r, 7);
    GetAt(r, 8);
  }

  /** A Technical record is a real dict framed by id, type "technical" and timestamp. */
  lemma TechnicalRecordShape(f: Forms.TechnicalInput, clock: Clock)
    ensures UniqueKeys(TechnicalRecord(f, clock)) && Framed(TechnicalRecord(f, clock), TechnicalType, clock)
  {
    TechnicalEntriesShape(StoredMention(f.complainantMention), f.complainantClip,
                          StoredMention(f.accusedMention), f.accusedClip, f.banLink, clock);
  }

  /** The Technical entries never hold a key twice. */
  lemma TechnicalEntriesShape(complainant: string, complainantClip: string, accused: string,
                              accusedClip: string, banLink: string, clock: Clock)
    ensures var r := TechnicalEntries(complainant, complainantClip, accused, accusedClip, banLink, clock);
      UniqueKeys(r) && Framed(r, TechnicalType, clock)
  {
    EntryKeysDistinct(TechnicalEntries(complainant, complainantClip, accused, accusedClip, banLink, clock));
  }

  /**
   * Every entry of the Technical form is stored under its own key; when the mentions are
   * digit strings (as validation ensures) the stored mention is the typed id.
   */
  lemma TechnicalRecordFields(f: Forms.TechnicalInput, clock: Clock)
    requires IsDigits(f.complainantMention) && IsDigits(f.accusedMention)
    ensures var r := TechnicalRecord(f, clock);
      && Get(r, Type) == Some(TechnicalType)
      && Get(r, ComplainantMention) == Some(f.complainantMention)
      && Get(r, ComplainantClip) == Some(f.complainantClip)
      && Get(r, AccusedMention) == Some(f.accusedMention)
      && Get(r, AccusedClip) == Some(f.accusedClip)
      && Get(r, BanLink) == Some(f.banLink)
  {
    var r := TechnicalRecord(f, clock);
    TechnicalRecordShape(f, clock);
    GetAt(r, 1); GetAt(r, 2); GetAt(r, 3); GetAt(r, 4); GetAt(r, 5); GetAt(r, 6);
  }

  /** A CreateWarn or CreateBan record is a real dict framed by id, type and timestamp. */
  lemma PlayerRecordShape(f: Forms.PlayerInput, clock: Clock, recordType: string, detail: Field)
    requires detail == BanTime || detail == Evidence
    ensures UniqueKeys(PlayerRecord(f, clock, recordType, detail))
    ensures Framed(PlayerRecord(f, clock, recordType, detail), recordType, clock)
  {
    EntryKeysDistinct(PlayerRecord(f, clock, recordType, detail));
  }

  /** A CreateWarn or CreateBan record holds the five player fields under their keys. */
  lemma PlayerRecordFields(f: Forms.PlayerInput, clock: Clock, recordType: string, detail: Field)
    requires detail == BanTime || detail == Evidence
    ensures var r := PlayerRecord(f, clock, recordType, detail);
      && Get(r, Type) == Some(recordType)
      && Get(r, PlayerDiscordId) == Some(f.playerDiscordId)
      && Get(r, PlayerInfo) == Some(f.playerInfo)
      && Get(r, Reason) == Some(f.reason)
      && Get(r, detail) == Some(f.detail)
      && Get(r, IsBanned) == Some(f.isBanned)
  {
    var r := PlayerRecord(f, clock, recordType, detail);
    PlayerRecordShape(f, clock, recordType, detail);
    GetAt(r, 1); GetAt(r, 2); GetAt(r, 3); GetAt(r, 4); GetAt(r, 5); GetAt(r, 6);
  }

  // ---------------------------------------------------------------- the edit form

  /**
   * The entries of the edit form, one per key `save_edited_complaint` writes back; `person_id`
   * comes from the option menu `personStatus` and the manual entry beside it.
   */
  datatype EditInput = EditInput(
    discordId: string, personInfo: string, warnBan: string,
    personStatus: string, personIdManual: string,
    violation: string, decisionSource: string,
    complainantMention: string, complainantClip: string,
    accusedMention: string, accusedClip: string, banLink: string)

  /** What the warn/ban menu of the edit form shows for a record without a `warn_ban`. */
  const DefaultWarnBan: string := "warn 1 + ban 1d"

  /** The keys the edit form writes, in the order it writes them. */
  const EditKeys: seq<Field> := [
    DiscordId, PersonInfo, WarnBan, PersonId, Violation, DecisionSource,
    ComplainantMention, ComplainantClip, AccusedMention, AccusedClip, BanLink]

  /** The eleven assignments of `save_edited_complaint`, whatever the record's type. */
  function EditPairs(e: EditInput): seq<Entry<Field>>
  {
    [(DiscordId, e.discordId), (PersonInfo, e.personInfo), (WarnBan, e.warnBan),
     (PersonId, Forms.PersonId(e.personStatus, e.personIdManual)), (Violation, e.violation),
     (DecisionSource, e.decisionSource), (ComplainantMention, e.complainantMention),
     (ComplainantClip, e.complainantClip), (AccusedMention, e.accusedMention),
     (AccusedClip, e.accusedClip), (BanLink, e.banLink)]
  }

  /** The assignments write the eleven edit keys, each once. */
  lemma EditPairsKeys(e: EditInput)
    ensures Keys(EditPairs(e)) == EditKeys && UniqueKeys(EditPairs(e))
  {
    var p := EditPairs(e);
    forall i | 0 <= i < |p| ensures Keys(p)[i] == EditKeys[i] {
      KeysAt(p, i);
    }
    EntryKeysDistinct(p);
  }

  /** The entry of the edit form that `save_edited_complaint` writes under key `k`. */
  function EditValue(e: EditInput, k: Field): Option<string>
  {
    match k
    case DiscordId => Some(e.discordId)
    case PersonInfo => Some(e.personInfo)
    case WarnBan => Some(e.warnBan)
    case PersonId => Some(Forms.PersonId(e.personStatus, e.personIdManual))
    case Violation => Some(e.violation)
    case DecisionSource => Some(e.decisionSource)
    case ComplainantMention => Some(e.complainantMention)
    case ComplainantClip => Some(e.complainantClip)
    case AccusedMention => Some(e.accusedMention)
    case AccusedClip => Some(e.accusedClip)
    case BanLink => Some(e.banLink)
    case _ => None
  }

  /** Each of the eleven assignments writes the form's entry for its key. */
  lemma EditPairsValues(e: EditInput, i: nat)
    requires i < |EditPairs(e)|
    ensures EditValue(e, EditPairs(e)[i].0) == Some(EditPairs(e)[i].1)
  {
  }

  /** The record after `save_edited_complaint`. */
  function ApplyEdit(c: Record, e: EditInput): Record
  {
    SetAll(c, EditPairs(e))
  }

  /** The first six assignments of `save_edited_complaint`: the keys of a Warning record. */
  function WarningEdits(e: EditInput): seq<Entry<Field>>
  {
    [(DiscordId, e.discordId), (PersonInfo, e.personInfo), (WarnBan, e.warnBan),
     (PersonId, Forms.PersonId(e.personStatus, e.personIdManual)), (Violation, e.violation),
     (DecisionSource, e.decisionSource)]
  }

  /** The last five assignments of `save_edited_complaint`: the keys of a Technical record. */
  function TechnicalEdits(e: EditInput): seq<Entry<Field>>
  {
    [(ComplainantMention, e.complainantMention), (ComplainantClip, e.complainantClip),
     (AccusedMention, e.accusedMention), (AccusedClip, e.accusedClip), (BanLink, e.banLink)]
  }

  /** Saving is the Warning assignments followed by the Technical ones. */
  lemma ApplyEditInTwo(c: Record, e: EditInput)
    ensures ApplyEdit(c, e) == SetAll(SetAll(c, WarningEdits(e)), TechnicalEdits(e))
  {
    assert EditPairs(e) == WarningEdits(e) + TechnicalEdits(e);
    SetAllAppend(c, WarningEdits(e), TechnicalEdits(e));
  }

  /**
   * The body of `save_edited_complaint`: the eleven assignments on the record, one after
   * another.
   */
  method AssignEdit(c: Record, e: EditInput) returns (r: Record)
    ensures r == ApplyEdit(c, e)
  {
    r := c;
    r := Set(r, DiscordId, e.discordId);
    r := Set(r, PersonInfo, e.personInfo);
    r := Set(r, WarnBan, e.warnBan);
    r := Set(r, PersonId, Forms.PersonId(e.personStatus, e.personIdManual));
    r := Set(r, Violation, e.violation);
    r := Set(r, DecisionSource, e.decisionSource);
    ghost var w := WarningEdits(e);
    SetAllSix(c, w[0], w[1], w[2], w[3], w[4], w[5]);
    assert w == [w[0], w[1], w[2], w[3], w[4], w[5]];
    ghost var mid := r;
    r := Set(r, ComplainantMention, e.complainantMention);
    r := Set(r, ComplainantClip, e.complainantClip);
    r := Set(r, AccusedMention, e.accusedMention);
    r := Set(r, AccusedClip, e.accusedClip);
    r := Set(r, BanLink, e.banLink);
    ghost var t := TechnicalEdits(e);
    SetAllFive(mid, t[0], t[1], t[2], t[3], t[4]);
    assert t == [t[0], t[1], t[2], t[3], t[4]];
    ApplyEditInTwo(c, e);
  }

  /** After saving, each edit key holds the form's entry for it. */
  lemma ApplyEditWrites(c: Record, e: EditInput, k: Field)
    requires k in EditKeys
    ensures EditValue(e, k).Some? && Get(ApplyEdit(c, e), k) == EditValue(e, k)
  {
    EditPairsKeys(e);
    var i :| 0 <= i < |EditKeys| && EditKeys[i] == k;
    KeysAt(EditPairs(e), i);
    SetAllAssigns(c, EditPairs(e), i);
    EditPairsValues(e, i);
  }

  /** Saving leaves every other key alone: the id, the type and the timestamp among them. */
  lemma ApplyEditKeepsOthers(c: Record, e: EditInput, k: Field)
    requires k !in EditKeys
    ensures Get(ApplyEdit(c, e), k) == Get(c, k)
  {
    EditPairsKeys(e);
    SetAllOthers(c, EditPairs(e), k);
  }

  /**
   * Saving keeps the record's keys in place and unique; the keys it adds are edit keys
   * (a Technical or player record gains the Warning keys and the other way round).
   */
  lemma ApplyEditKeys(c: Record, e: EditInput)
    ensures |c| <= |ApplyEdit(c, e)| && Keys(ApplyEdit(c, e))[..|c|] == Keys(c)
    ensures forall k :: k in Keys(ApplyEdit(c, e)) ==> k in Keys(c) || k in EditKeys
    ensures UniqueKeys(c) ==> UniqueKeys(ApplyEdit(c, e))
  {
    EditPairsKeys(e);
    SetAllKeepsKeys(c, EditPairs(e));
    forall k | k in Keys(ApplyEdit(c, e)) ensures k in Keys(c) || k in EditKeys {
      SetAllNewKeys(c, EditPairs(e), k);
    }
    if UniqueKeys(c) {
      SetAllKeepsKeysUnique(c, EditPairs(e));
    }
  }

  /** Saving the same form twice stores what saving it once does. */
  lemma ApplyEditIdempotent(c: Record, e: EditInput)
    requires UniqueKeys(c)
    ensures ApplyEdit(ApplyEdit(c, e), e) == ApplyEdit(c, e)
  {
    EditPairsKeys(e);
    SetAllIdempotent(c, EditPairs(e));
  }

  /** What the edit form shows for an edit key the record lacks. */
  function EditDefault(k: Field): string
  {
    if k == WarnBan then DefaultWarnBan else if k == PersonId then Forms.Offline else ""
  }

  /** `complaint.get(k, default)` with the edit form's default for `k`. */
  function Shown(c: Record, k: Field): string
  {
    GetOr(c, k, EditDefault(k))
  }

  /**
   * The edit form as `show_edit_complaint` fills it from a record: a missing key shows ""
   * (the warn/ban menu "warn 1 + ban 1d", the person menu "Offline"); the person menu is set
   * to the stored `person_id` itself, and the manual entry is refilled only when that is not
   * "Offline" (otherwise it keeps `previousManual`, what it held before).
   */
  function Prefill(c: Record, previousManual: string): EditInput
  {
    var personId := Shown(c, PersonId);
    EditInput(
      Shown(c, DiscordId), Shown(c, PersonInfo), Shown(c, WarnBan),
      personId, if personId != Forms.Offline then personId else previousManual,
      Shown(c, Violation), Shown(c, DecisionSource),
      Shown(c, ComplainantMention), Shown(c, ComplainantClip),
      Shown(c, AccusedMention), Shown(c, AccusedClip), Shown(c, BanLink))
  }

  /**
   * The prefilled form holds, for each edit key, what the record holds under it, or the key's
   * default when it holds nothing; in particular the person id survives, whatever the
   * manual entry held before.
   */
  lemma PrefillValue(c: Record, previousManual: string, k: Field)
    ensures EditValue(Prefill(c, previousManual), k).Some? ==>
      EditValue(Prefill(c, previousManual), k) == Some(Shown(c, k))
  {
    if k == PersonId {
      PersonIdRefilled(Shown(c, PersonId), previousManual);
    }
  }

  /** The person id the edit form writes back is the one it was filled with. */
  lemma PersonIdRefilled(personId: string, previousManual: string)
    ensures Forms.PersonId(personId, if personId != Forms.Offline then personId else previousManual) == personId
  {
  }

  /**
   * Opening a record in the edit form and saving it untouched (`show_edit_complaint` then
   * `save_edited_complaint`) changes none of the values the record had, and fills every edit
   * key it lacked with that key's default.
   */
  lemma PrefillSaveKeepsValues(c: Record, previousManual: string, k: Field)
    ensures k in Keys(c) ==> Get(ApplyEdit(c, Prefill(c, previousManual)), k) == Get(c, k)
    ensures k !in Keys(c) && k in EditKeys ==>
      Get(ApplyEdit(c, Prefill(c, previousManual)), k) == Some(EditDefault(k))
  {
    var e := Prefill(c, previousManual);
    if k in EditKeys {
      ApplyEditWrites(c, e, k);
      PrefillValue(c, previousManual, k);
    } else {
      ApplyEditKeepsOthers(c, e, k);
    }
  }
}
