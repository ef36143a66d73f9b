/**
 * The four forms of the message generator: what each handler checks before it does anything,
 * and the message text it renders (the handlers `generate_warning_message`,
 * `generate_technical_message`, `generate_create_warn_message`, `generate_create_ban_message`).
 *
 * Translated labels, the clock and the URL validator are parameters.
 */
module Forms {
  import opened Text

  /** Which error dialog a rejected form shows. */
  datatype ValidationError = RequiredFields | InvalidDiscordId | InvalidUrl

  /** The verdict of a form's checks. */
  datatype Check = Pass | Fail(error: ValidationError)

  // ---------------------------------------------------------------- Warning form

  /** The Warning form's entries; `personStatus` is the option menu, `personIdManual` the entry beside it. */
  datatype WarningInput = WarningInput(
    discordId: string, personInfo: string, warnBan: string,
    personStatus: string, personIdManual: string,
    violation: string, decisionSource: string)

  const Offline: string := "Offline"

  /** `person_id`: the menu value when it reads "Offline", otherwise the manual entry. */
  function PersonId(status: string, manual: string): string
  {
    if status == Offline then status else manual
  }

  /** The Warning form's required fields, `person_info` not among them. */
  predicate WarningComplete(f: WarningInput)
  {
    f.discordId != "" && f.warnBan != "" && PersonId(f.personStatus, f.personIdManual) != ""
    && f.violation != "" && f.decisionSource != ""
  }

  /** The checks of `generate_warning_message`, in the order it makes them. */
  function ValidateWarning(f: WarningInput): (r: Check)
    ensures r == Fail(RequiredFields) <==> !WarningComplete(f)
    ensures r == Fail(InvalidDiscordId) <==>
      WarningComplete(f) && !(IsDigits(f.discordId) && IsDigits(f.decisionSource))
    ensures r == Pass <==> WarningComplete(f) && IsDigits(f.discordId) && IsDigits(f.decisionSource)
    ensures r != Fail(InvalidUrl)
  {
    if f.discordId == "" || f.warnBan == "" || PersonId(f.personStatus, f.personIdManual) == ""
       || f.violation == "" || f.decisionSource == "" then Fail(RequiredFields)
    else if !IsDigits(f.discordId) then Fail(InvalidDiscordId)
    else if !IsDigits(f.decisionSource) then Fail(InvalidDiscordId)
    else Pass
  }

  /** The lines of a Warning message; the `person_info` line is there only when it is filled in. */
  function WarningLines(f: WarningInput, timestamp: string): seq<string>
  {
    [Mention(f.discordId)]
    + (if f.personInfo != "" then [f.personInfo] else [])
    + ["discord : (discord:" + f.discordId + ")", "", f.warnBan,
       "id : " + PersonId(f.personStatus, f.personIdManual), f.violation, "",
       "by : " + Mention(f.decisionSource), timestamp]
  }

  /** One `+=` step that adds a line and its break to a message of whole lines. */
  lemma AddLine(message: string, lines: seq<string>, x: string)
    requires lines != [] && message == JoinLines(lines) + "\n"
    ensures message + x + "\n" == JoinLines(lines + [x]) + "\n"
  {
    JoinLinesSnoc(lines, x);
  }

  /** One `+=` step that adds a blank line, a line and its break. */
  lemma AddBlankAndLine(message: string, lines: seq<string>, x: string)
    requires lines != [] && message == JoinLines(lines) + "\n"
    ensures message + "\n" + x + "\n" == JoinLines(lines + ["", x]) + "\n"
  {
    JoinLinesSnoc(lines, "");
    JoinLinesSnoc(lines + [""], x);
    assert lines + [""] + [x] == lines + ["", x];
  }

  /** The message of `generate_warning_message`, built by the same successive `+=` steps. */
  method BuildWarningMessage(f: WarningInput, timestamp: string) returns (message: string)
    ensures message == JoinLines(WarningLines(f, timestamp))
  {
    var discordLine := "discord : (discord:" + f.discordId + ")";
    var idLine := "id : " + PersonId(f.personStatus, f.personIdManual);
    var byLine := "by : " + Mention(f.decisionSource);
    ghost var head := [Mention(f.discordId)] + (if f.personInfo != "" then [f.personInfo] else []);

    message := Mention(f.discordId) + "\n";
    if f.personInfo != "" {
      AddLine(message, [Mention(f.discordId)], f.personInfo);
      message := message + f.personInfo + "\n";
    }
    assert message == JoinLines(head) + "\n";
    AddLine(message, head, discordLine);
    message := message + discordLine + "\n";
    AddBlankAndLine(message, head + [discordLine], f.warnBan);
    message := message + "\n" + f.warnBan + "\n";
    AddLine(message, head + [discordLine] + ["", f.warnBan], idLine);
    message := message + idLine + "\n";
    ghost var upToId := head + [discordLine] + ["", f.warnBan] + [idLine];
    AddLine(message, upToId, f.violation);
    message := message + f.violation + "\n";
    AddBlankAndLine(message, upToId + [f.violation], byLine);
    message := message + "\n" + byLine + "\n";
    ghost var upToBy := upToId + [f.violation] + ["", byLine];
    JoinLinesSnoc(upToBy, timestamp);
    message := message + timestamp;
    assert upToBy + [timestamp] == WarningLines(f, timestamp);
  }

  /** No entry of the Warning form holds a line break, and neither does the timestamp. */
  predicate WarningSingleLine(f: WarningInput, timestamp: string)
  {
    '\n' !in f.discordId && '\n' !in f.personInfo && '\n' !in f.warnBan
    && '\n' !in PersonId(f.personStatus, f.personIdManual) && '\n' !in f.violation
    && '\n' !in f.decisionSource && '\n' !in timestamp
  }

  /**
   * The layout of a Warning message: it opens with `<@discord_id>` and a break, closes with a
   * break and the timestamp, and, when no entry holds a break of its own, it splits back into
   * exactly its lines, of which there are ten when `person_info` is filled in and nine otherwise.
   */
  lemma WarningLayout(f: WarningInput, timestamp: string)
    ensures var m := JoinLines(WarningLines(f, timestamp)); var open := Mention(f.discordId) + "\n";
      && |open| <= |m| && m[..|open|] == open
      && |timestamp| + 1 <= |m| && m[|m| - |timestamp| - 1..] == "\n" + timestamp
    ensures WarningSingleLine(f, timestamp) ==>
      var ls := SplitLines(JoinLines(WarningLines(f, timestamp)));
      && ls == WarningLines(f, timestamp)
      && (|ls| == 10 <==> f.personInfo != "")
      && (|ls| == 9 <==> f.personInfo == "")
      && ls[0] == Mention(f.discordId)
      && (f.personInfo != "" ==> ls[1] == f.personInfo)
      && ls[|ls| - 2] == "by : " + Mention(f.decisionSource)
  {
    var ls := WarningLines(f, timestamp);
    JoinLinesStartsWith(ls);
    JoinLinesEndsWith(ls);
    if WarningSingleLine(f, timestamp) {
      assert SingleLines(ls);
      SplitJoin(ls);
    }
  }

  // ---------------------------------------------------------------- Technical form

  /** The Technical form's entries, as typed. */
  datatype TechnicalInput = TechnicalInput(
    complainantMention: string, complainantClip: string,
    accusedMention: string, accusedClip: string, banLink: string)

  /** The translated section headings of the Technical message. */
  datatype TechnicalLabels = TechnicalLabels(
    complainantMention: string, complainantClip: string,
    accusedMention: string, accusedClip: string, banLink: string)

  /** The handler strips surrounding whitespace from the two mention entries only. */
  function TrimMentions(raw: TechnicalInput): TechnicalInput
  {
    raw.(complainantMention := Strip(raw.complainantMention), accusedMention := Strip(raw.accusedMention))
  }

  /** The Technical form's required fields; the ban link is optional. */
  predicate TechnicalComplete(f: TechnicalInput)
  {
    f.complainantMention != "" && f.complainantClip != "" && f.accusedMention != "" && f.accusedClip != ""
  }

  /** Both clips are URLs, and so is the ban link when there is one. */
  predicate TechnicalUrls(f: TechnicalInput, isUrl: string -> bool)
  {
    isUrl(f.complainantClip) && isUrl(f.accusedClip) && (f.banLink != "" ==> isUrl(f.banLink))
  }

  /** The checks of `generate_technical_message` on the trimmed entries, in its order. */
  function ValidateTechnical(f: TechnicalInput, isUrl: string -> bool): (r: Check)
    ensures r == Fail(RequiredFields) <==> !TechnicalComplete(f)
    ensures r == Fail(InvalidDiscordId) <==>
      TechnicalComplete(f) && !(IsDigits(f.complainantMention) && IsDigits(f.accusedMention))
    ensures r == Fail(InvalidUrl) <==>
      TechnicalComplete(f) && IsDigits(f.complainantMention) && IsDigits(f.accusedMention)
      && !TechnicalUrls(f, isUrl)
    ensures r == Pass <==>
      TechnicalComplete(f) && IsDigits(f.complainantMention) && IsDigits(f.accusedMention)
      && TechnicalUrls(f, isUrl)
  {
    if f.complainantMention == "" || f.complainantClip == "" || f.accusedMention == "" || f.accusedClip == "" then
      Fail(RequiredFields)
    else if !IsDigits(f.complainantMention) || !IsDigits(f.accusedMention) then Fail(InvalidDiscordId)
    else if !isUrl(f.complainantClip) || !isUrl(f.accusedClip) then Fail(InvalidUrl)
    else if f.banLink != "" && !isUrl(f.banLink) then Fail(InvalidUrl)
    else Pass
  }

  const NotAvailable: string := "Not Available"

  /** What the ban-link section shows. */
  function BanLinkText(banLink: string): string
  {
    if banLink != "" then banLink else NotAvailable
  }

  /** A bold section heading, `**title**`. */
  function Heading(title: string): string
  {
    "**" + title + "**"
  }

  /** The lines of a Technical message: five headed sections, the clip sections followed by a blank line. */
  function TechnicalLines(f: TechnicalInput, labels: TechnicalLabels): seq<string>
  {
    [Heading(labels.complainantMention), Mention(f.complainantMention),
     Heading(labels.complainantClip), f.complainantClip, "",
     Heading(labels.accusedMention), Mention(f.accusedMention),
     Heading(labels.accusedClip), f.accusedClip, "",
     Heading(labels.banLink), BanLinkText(f.banLink)]
  }

  /** Twelve lines with blanks at the fifth and tenth joined: the blanks make double breaks. */
  lemma JoinTechnicalShape(h0: string, m0: string, h1: string, cc: string, h2: string,
                           m1: string, h3: string, ac: string, h4: string, bl: string)
    ensures JoinLines([h0, m0, h1, cc, "", h2, m1, h3, ac, "", h4, bl])
         == h0 + "\n" + m0 + "\n" + h1 + "\n" + cc + "\n\n"
          + h2 + "\n" + m1 + "\n" + h3 + "\n" + ac + "\n\n" + h4 + "\n" + bl
  {
    var first := [h0, m0, h1, cc, "", h2, m1, h3, ac, ""];
    JoinTen(h0, m0, h1, cc, "", h2, m1, h3, ac, "");
    JoinLinesSnoc(first, h4);
    assert first + [h4] == [h0, m0, h1, cc, "", h2, m1, h3, ac, "", h4];
    JoinLinesSnoc(first + [h4], bl);
    assert first + [h4] + [bl] == [h0, m0, h1, cc, "", h2, m1, h3, ac, "", h4, bl];
    assert h0 + "\n" + m0 + "\n" + h1 + "\n" + cc + "\n" + "" + "\n"
        == h0 + "\n" + m0 + "\n" + h1 + "\n" + cc + "\n\n";
  }

  /** The message of `generate_technical_message`, one concatenation as there. */
  function TechnicalMessage(f: TechnicalInput, labels: TechnicalLabels): (r: string)
    ensures r == JoinLines(TechnicalLines(f, labels))
  {
    JoinTechnicalShape(
      Heading(labels.complainantMention), Mention(f.complainantMention),
      Heading(labels.complainantClip), f.complainantClip,
      Heading(labels.accusedMention), Mention(f.accusedMention),
      Heading(labels.accusedClip), f.accusedClip,
      Heading(labels.banLink), BanLinkText(f.banLink));
    Heading(labels.complainantMention) + "\n" + Mention(f.complainantMention) + "\n"
    + Heading(labels.complainantClip) + "\n" + f.complainantClip + "\n\n"
    + Heading(labels.accusedMention) + "\n" + Mention(f.accusedMention) + "\n"
    + Heading(labels.accusedClip) + "\n" + f.accusedClip + "\n\n"
    + Heading(labels.banLink) + "\n" + BanLinkText(f.banLink)
  }

  /** No entry or label of the Technical form holds a line break. */
  predicate TechnicalSingleLine(f: TechnicalInput, labels: TechnicalLabels)
  {
    '\n' !in f.complainantMention && '\n' !in f.complainantClip && '\n' !in f.accusedMention
    && '\n' !in f.accusedClip && '\n' !in f.banLink
    && '\n' !in labels.complainantMention && '\n' !in labels.complainantClip
    && '\n' !in labels.accusedMention && '\n' !in labels.accusedClip && '\n' !in labels.banLink
  }

  /**
   * The layout of a Technical message: it splits back into its twelve lines, both people
   * appear as `<@id>` mentions, and the last line reads "Not Available" exactly when the ban
   * link is empty (or is that very text).
   */
  lemma TechnicalLayout(f: TechnicalInput, labels: TechnicalLabels)
    requires TechnicalSingleLine(f, labels)
    ensures var ls := SplitLines(TechnicalMessage(f, labels));
      && ls == TechnicalLines(f, labels) && |ls| == 12
      && ls[1] == Mention(f.complainantMention) && ls[6] == Mention(f.accusedMention)
      && ls[10] == Heading(labels.banLink)
      && (ls[11] == NotAvailable <==> f.banLink == "" || f.banLink == NotAvailable)
  {
    var ls := TechnicalLines(f, labels);
    assert SingleLines(ls);
    SplitJoin(ls);
  }

  // ---------------------------------------------------------------- CreateWarn and CreateBan forms

  /**
   * The CreateWarn and CreateBan forms share their entries except the fourth: `detail` is the
   * ban time on CreateWarn and the evidence on CreateBan.
   */
  datatype PlayerInput = PlayerInput(
    playerDiscordId: string, playerInfo: string, reason: string, detail: string, isBanned: string)

  /** Every entry is required on both forms. */
  predicate PlayerComplete(f: PlayerInput)
  {
    f.playerDiscordId != "" && f.playerInfo != "" && f.reason != "" && f.detail != "" && f.isBanned != ""
  }

  /** The checks shared by `generate_create_warn_message` and `generate_create_ban_message`. */
  function ValidatePlayer(f: PlayerInput): (r: Check)
    ensures r == Fail(RequiredFields) <==> !PlayerComplete(f)
    ensures r == Fail(InvalidDiscordId) <==> PlayerComplete(f) && !IsDigits(f.playerDiscordId)
    ensures r == Pass <==> PlayerComplete(f) && IsDigits(f.playerDiscordId)
    ensures r != Fail(InvalidUrl)
  {
    if f.playerDiscordId == "" || f.playerInfo == "" || f.reason == "" || f.detail == "" || f.isBanned == "" then
      Fail(RequiredFields)
    else if !IsDigits(f.playerDiscordId) then Fail(InvalidDiscordId)
    else Pass
  }

  /** The fixed (untranslated) labels of the five blocks. */
  const PlayerIdLabel: string := "Player Discord ID"
  const PlayerInfoLabel: string := "Player Info"
  const ReasonLabel: string := "Reason"
  const BanTimeLabel: string := "Ban Time"
  const EvidenceLabel: string := "Evidence"
  const IsBannedLabel: string := "is Player Banned ?"

  /** ```` ```value``` ````. */
  function Fenced(value: string): string
  {
    "```" + value + "```"
  }

  /** The lines of `label` / fenced `value` blocks, in order. */
  function BlockLines(blocks: seq<(string, string)>): seq<string>
  {
    if blocks == [] then [] else [blocks[0].0, Fenced(blocks[0].1)] + BlockLines(blocks[1..])
  }

  /** The five blocks of a CreateWarn or CreateBan message, the fourth labelled `detailLabel`. */
  function PlayerBlocks(f: PlayerInput, detailLabel: string): seq<(string, string)>
  {
    [(PlayerIdLabel, f.playerDiscordId), (PlayerInfoLabel, f.playerInfo), (ReasonLabel, f.reason),
     (detailLabel, f.detail), (IsBannedLabel, f.isBanned)]
  }

  /** The five blocks laid out: each label on its own line, then its fenced value. */
  lemma PlayerBlockLines(f: PlayerInput, detailLabel: string)
    ensures BlockLines(PlayerBlocks(f, detailLabel))
         == [PlayerIdLabel, Fenced(f.playerDiscordId), PlayerInfoLabel, Fenced(f.playerInfo),
             ReasonLabel, Fenced(f.reason), detailLabel, Fenced(f.detail),
             IsBannedLabel, Fenced(f.isBanned)]
  {
    var bs := PlayerBlocks(f, detailLabel);
    assert bs[1..][1..][1..][1..][1..] == [];
    assert BlockLines(bs[1..][1..][1..][1..]) == [IsBannedLabel, Fenced(f.isBanned)];
    assert BlockLines(bs[1..][1..][1..])
        == [detailLabel, Fenced(f.detail), IsBannedLabel, Fenced(f.isBanned)];
    assert BlockLines(bs[1..][1..])
        == [ReasonLabel, Fenced(f.reason), detailLabel, Fenced(f.detail),
            IsBannedLabel, Fenced(f.isBanned)];
    assert BlockLines(bs[1..])
        == [PlayerInfoLabel, Fenced(f.playerInfo), ReasonLabel, Fenced(f.reason),
            detailLabel, Fenced(f.detail), IsBannedLabel, Fenced(f.isBanned)];
  }

  /** A text that ends in a fence ends in three backticks. */
  lemma EndsWithFence(prefix: string, value: string)
    ensures var s := prefix + Fenced(value); |s| >= 3 && s[|s| - 3..] == "```"
  {
    var s := prefix + Fenced(value);
    assert s[|s| - 3..] == Fenced(value)[|Fenced(value)| - 3..];
  }

  /**
   * The one concatenation of `generate_create_warn_message` (with `detailLabel` "Ban Time") and
   * of `generate_create_ban_message` (with "Evidence"): five blocks joined by breaks, and
   * no break after the last fence.
   */
  function PlayerMessage(f: PlayerInput, detailLabel: string): (r: string)
    ensures r == JoinLines(BlockLines(PlayerBlocks(f, detailLabel)))
    ensures |r| >= 3 && r[|r| - 3..] == "```"
  {
    PlayerBlockLines(f, detailLabel);
    JoinTen(PlayerIdLabel, Fenced(f.playerDiscordId), PlayerInfoLabel, Fenced(f.playerInfo),
            ReasonLabel, Fenced(f.reason), detailLabel, Fenced(f.detail),
            IsBannedLabel, Fenced(f.isBanned));
    var prefix := PlayerIdLabel + "\n" + Fenced(f.playerDiscordId) + "\n"
      + PlayerInfoLabel + "\n" + Fenced(f.playerInfo) + "\n"
      + ReasonLabel + "\n" + Fenced(f.reason) + "\n"
      + detailLabel + "\n" + Fenced(f.detail) + "\n"
      + IsBannedLabel + "\n";
    EndsWithFence(prefix, f.isBanned);
    prefix + Fenced(f.isBanned)
  }

  /** No entry of the form, nor the fourth label, holds a line break. */
  predicate PlayerSingleLine(f: PlayerInput, detailLabel: string)
  {
    '\n' !in f.playerDiscordId && '\n' !in f.playerInfo && '\n' !in f.reason
    && '\n' !in f.detail && '\n' !in f.isBanned && '\n' !in detailLabel
  }

  /**
   * A CreateWarn or CreateBan message splits back into ten lines: each label followed by its
   * fenced value, in the fixed order Player Discord ID, Player Info, Reason, the detail,
   * is Player Banned ?.
   */
  lemma PlayerLayout(f: PlayerInput, detailLabel: string)
    requires PlayerSingleLine(f, detailLabel)
    ensures var ls := SplitLines(PlayerMessage(f, detailLabel));
      && |ls| == 10
      && ls == [PlayerIdLabel, Fenced(f.playerDiscordId), PlayerInfoLabel, Fenced(f.playerInfo),
                ReasonLabel, Fenced(f.reason), detailLabel, Fenced(f.detail),
                IsBannedLabel, Fenced(f.isBanned)]
  {
    PlayerBlockLines(f, detailLabel);
    var ls := BlockLines(PlayerBlocks(f, detailLabel));
    assert SingleLines(ls);
    SplitJoin(ls);
  }

  /** The CreateWarn message. */
  function CreateWarnMessage(f: PlayerInput): string
  {
    PlayerMessage(f, BanTimeLabel)
  }

  /** The CreateBan message. */
  function CreateBanMessage(f: PlayerInput): string
  {
    PlayerMessage(f, EvidenceLabel)
  }

  /**
   * On the same entries, two player messages with different detail labels (the CreateWarn
   * message with "Ban Time", the CreateBan message with "Evidence") differ only in the
   * seventh line, the label of the fourth block.
   */
  lemma PlayerMessagesDifferOnlyInDetailLabel(f: PlayerInput, d1: string, d2: string)
    requires PlayerSingleLine(f, d1) && '\n' !in d2
    ensures var w, b := SplitLines(PlayerMessage(f, d1)), SplitLines(PlayerMessage(f, d2));
      && |w| == |b| == 10 && w == b[6 := d1] && b[6] == d2
  {
    PlayerLayout(f, d1);
    PlayerLayout(f, d2);
    var x0, x1, x2, x3, x4, x5, x7, x8, x9 := PlayerIdLabel, Fenced(f.playerDiscordId),
      PlayerInfoLabel, Fenced(f.playerInfo), ReasonLabel, Fenced(f.reason), Fenced(f.detail),
      IsBannedLabel, Fenced(f.isBanned);
    SwapSeventh(x0, x1, x2, x3, x4, x5, d1, d2, x7, x8, x9);
  }

  /** Replacing the seventh of ten lines. */
  lemma SwapSeventh(x0: string, x1: string, x2: string, x3: string, x4: string, x5: string,
                    d1: string, d2: string, x7: string, x8: string, x9: string)
    ensures [x0, x1, x2, x3, x4, x5, d2, x7, x8, x9][6 := d1] == [x0, x1, x2, x3, x4, x5, d1, x7, x8, x9]
  {
  }
}
