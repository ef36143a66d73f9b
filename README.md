# MTAdmin message generator — a verified model of its core

`message_generator_gui.py` is a desktop tool for moderators. One of four forms is filled in:
Warning, Technical, CreateWarn or CreateBan. The tool then:

- checks the entries;
- renders a templated message and copies it to the clipboard;
- appends a complaint record to an in-memory list, persisted as `complaints.json`;
- posts the message to the form's Discord webhook, retrying on failure.

The records can later be edited, deleted and exported to CSV. This project models the part of
the program that is not widget code, and proves what it promises.

- **Delivery** — `send_to_webhook`. The `for` loop is an imperative method, proved against a
  recursive specification `AttemptsFrom`. The network is an oracle `outcome(i)`, which gives the
  result of the `i`-th `requests.post`: a status code or an exception. What the function does
  outside is returned as a trace of `Post` and `Sleep` events.
- **Forms** — the checks of the four handlers and the messages they render. The Warning message
  is built by the same successive `+=` steps as the source (`BuildWarningMessage`). The other
  three messages are single expressions, so here they are functions. The translated labels, the
  clock and the URL validator are parameters.
- **Dicts** — Python dicts as association lists in insertion order:
  - `d[k] = v` keeps an existing key where it is and appends a new one;
  - `d.get` is `Get`/`GetOr`;
  - dict `==` (which `list.remove` uses) is `SameDict`, same lookups in any order.
- **Records** — the records the four handlers append, and the edit form. `show_edit_complaint`
  fills the form (`Prefill`) and `save_edited_complaint` performs its eleven assignments
  (`AssignEdit` / `ApplyEdit`).
- **Collection** — `list.remove` as `delete_complaint` uses it, and the rule of `export_to_csv`.
  Beside it is a corrected export (see Findings).
- **Webhooks** — the `load_webhooks` defaults, `save_webhooks`, and the lookup
  `self.webhooks.get(type, "")`.
- **Generator** — class `App`, holding the state the program changes in place:
  - `complaints`, the list of records;
  - `webhooks`, the configuration;
  - `selected`, the record the edit form is open on.

  Its methods are the handlers: `__init__`, the four `generate_*_message`, `save_webhooks`,
  `show_edit_complaint`, `save_edited_complaint`, `delete_complaint` and `export_to_csv`.

The program's `self.current_complaint` is a reference to a dict inside the list. The model keeps
the record's position instead:

- deleting an earlier record moves the position up by one;
- deleting the record itself clears it.

In the program, saving after such a deletion writes to a dict that is no longer in the list. The
list is unchanged either way.

## Model

| member | source | states |
|---|---|---|
| Delivery.SendToWebhook | message_generator_gui.py:37-54 | The loop computes exactly `Deliver`. An empty URL returns false with no POST. Otherwise it returns true iff one of the first `retries` attempts gets a 204. It POSTs up to and including the first 204 and sleeps once fewer. With no 204 it POSTs `retries` times. The last event is a POST. |
| Delivery.DeliverShape | message_generator_gui.py:37-54 | For any retries and delay: the empty-URL case, the success iff, the POST and sleep counts, strict POST/sleep alternation, and no sleep after the last POST. |
| Delivery.AttemptsFromSuccess | message_generator_gui.py:41-47 | The attempts from a given one on succeed iff one of them, below `retries`, gets a 204. |
| Delivery.AttemptsFromCounts | message_generator_gui.py:41-54 | If attempt `i` is the first 204, the loop makes `i + 1 - attempt` POSTs and `i - attempt` sleeps. With no 204 it makes `retries - attempt` POSTs and one sleep fewer. |
| Delivery.AttemptsFromAlternate | message_generator_gui.py:41-54 | The trace is empty iff no attempt is left. It has odd length, POSTs at even positions and sleeps of `delay` at odd ones. |
| Forms.ValidateWarning | message_generator_gui.py:738-746 | "Required fields" iff one of discord id, warn/ban, person id, violation or decision source is empty. "Invalid Discord id" iff all are filled but discord id or decision source is not all digits. Pass iff neither. Never "invalid URL". |
| Forms.BuildWarningMessage | message_generator_gui.py:749-757 | The successive `+=` steps produce the lines of `WarningLines` joined by breaks. |
| Forms.WarningLayout | message_generator_gui.py:749-757 | The message starts with `<@discord_id>` and a break, and ends with a break and the timestamp. When no entry holds a break, it splits back into its lines. There are ten lines iff `person_info` is filled in (nine otherwise), and the line before last is `by : <@decision_source>`. |
| Forms.ValidateTechnical | message_generator_gui.py:787-797 | Exactly one of four outcomes, each as an iff on the trimmed entries: a required entry is empty; a mention is not all digits; a clip, or a non-empty ban link, is not a URL; or pass. |
| Forms.TechnicalMessage | message_generator_gui.py:800-809 | The one concatenation is the twelve lines of `TechnicalLines` joined by breaks. |
| Forms.TechnicalLayout | message_generator_gui.py:800-809 | With no break in any entry or label: the message splits back into its twelve lines, both mentions read `<@id>`, and the last line is "Not Available" iff the ban link is empty or is that text. |
| Forms.ValidatePlayer | message_generator_gui.py:838-843 | "Required fields" iff an entry is empty. "Invalid Discord id" iff all are filled and the player id is not all digits. Pass otherwise. This check is shared by CreateWarn (838-843) and CreateBan (886-891). |
| Forms.PlayerBlockLines | message_generator_gui.py:846-857 | The five blocks are laid out as label, fenced value, in the fixed order. |
| Forms.PlayerMessage | message_generator_gui.py:846-857 | The message is the block lines joined by breaks, and it ends in three backticks: there is no trailing break. |
| Forms.PlayerLayout | message_generator_gui.py:846-857 | With no break in any entry, the message splits back into exactly ten lines: each label followed by its fenced value. |
| Forms.PlayerMessagesDifferOnlyInDetailLabel | message_generator_gui.py:894-905 | The CreateBan message differs from the CreateWarn message only in its seventh line, the label of the fourth block. |
| Text.LStrip | message_generator_gui.py:780 | The result is a suffix of the input. Everything removed is in the set, and the result does not start with a character of the set. |
| Text.RStrip | message_generator_gui.py:780 | The result is a prefix of the input. Everything removed is in the set, and the result does not end with a character of the set. |
| Text.MentionStripRoundTrip | message_generator_gui.py:816-818 | `"<@" + id + ">".strip("<@>")` gives back a digit id. |
| Records.StoredMention | message_generator_gui.py:816-818 | The mention a Technical record stores is the typed id whenever that id is all digits. |
| Records.WarningRecordShape | message_generator_gui.py:761-771 | A Warning record holds no key twice, and is framed by its id, the type "warning" and its timestamp. |
| Records.WarningRecordKeys | message_generator_gui.py:761-771 | The keys of a Warning record are the nine keys, in the order the handler writes them. |
| Records.WarningRecordFields | message_generator_gui.py:761-771 | Each entry of the Warning form is stored under its own key, with the person id as selected. |
| Records.TechnicalRecordShape | message_generator_gui.py:813-822 | A Technical record holds no key twice, and is framed by its id, the type "technical" and its timestamp. |
| Records.TechnicalRecordFields | message_generator_gui.py:813-822 | For digit mentions, the stored mentions are the typed ids, and the clips and ban link are stored as typed. |
| Records.PlayerRecordShape | message_generator_gui.py:861-870 | A CreateWarn or CreateBan record holds no key twice, and is framed by its id, its type and its timestamp. |
| Records.PlayerRecordFields | message_generator_gui.py:909-918 | The five player entries are stored under their keys, with the fourth under `ban_time` or `evidence`. |
| Records.EditPairsKeys | message_generator_gui.py:977-987 | The edit writes the eleven edit keys, each once, in the source's order. |
| Records.AssignEdit | message_generator_gui.py:977-987 | The eleven assignments in a row compute `ApplyEdit`. |
| Records.ApplyEditWrites | message_generator_gui.py:977-987 | After saving, each edit key holds the form's entry for it; the person id is the menu value or the manual entry. |
| Records.FieldNameInjective | message_generator_gui.py:761-771 | The names of the program's own keys, as written in the dict literals, are distinct: two of them are equal iff they are the same key. |
| Records.ApplyEditKeepsOthers | message_generator_gui.py:977-987 | Every key that is not an edit key keeps its value: `id`, `type`, `timestamp` and any other. |
| Records.ApplyEditKeys | message_generator_gui.py:977-987 | The record's keys stay first and in place. Only edit keys are added. A real dict stays real. |
| Records.ApplyEditIdempotent | message_generator_gui.py:977-987 | Saving the same form twice gives what saving it once does. |
| Records.PrefillValue | message_generator_gui.py:702-727 | The form shows, for each edit key, the record's value or the key's default. This includes the person id, whatever the manual entry held before. |
| Records.PersonIdRefilled | message_generator_gui.py:707-712 | Setting the menu to the stored person id, and the manual entry when that id is not "Offline", gives that id back on save. |
| Records.PrefillSaveKeepsValues | message_generator_gui.py:702-727 | Opening a record and saving it untouched changes none of its values. It fills each missing edit key with its default ("", "warn 1 + ban 1d", "Offline"). |
| Collection.IndexOfFirst | message_generator_gui.py:995 | None iff no record equals `x` under dict `==`. Otherwise the first position holding a record equal to it. |
| Collection.RemoveFirst | message_generator_gui.py:995 | `list.remove` fails (ValueError) iff no record equals its argument. |
| Collection.RemoveFirstDropsOne | message_generator_gui.py:995 | A successful remove drops exactly one record, one equal to `x` (multiset and length). The records before it are unchanged; the records after it move up by one. |
| Collection.RemoveClicked | message_generator_gui.py:993-997 | Deleting a listed record always succeeds. It removes that record, or an earlier one equal to it; the record itself iff no earlier record is equal. |
| Collection.Row | message_generator_gui.py:1008 | A CSV row has one cell per header column: the record's value, or "" where it has none. |
| Collection.FirstMisfit | message_generator_gui.py:1006-1008 | Every record before the result fits the header, and the record at the result does not. |
| Collection.ExportRule | message_generator_gui.py:999-1008 | Export is refused iff the list is empty. The header is the keys of the first record. It succeeds iff every record's keys are among them. Otherwise it raises at the first record with an extra key, which is never the first, after writing the rows before it. |
| Collection.ExportPairMisfit | message_generator_gui.py:1006-1008 | Exporting two records, the second with a key the first lacks, raises at the second after one row. |
| Collection.ExportWarningThenTechnical | message_generator_gui.py:1006-1008 | A Warning record followed by a Technical record makes the export raise at the second record. |
| Collection.AddKeys | message_generator_gui.py:1006 | Appending unseen keys keeps the header as a prefix, adds exactly the new keys, and keeps the header duplicate-free. |
| Collection.AddColumnsCovers | message_generator_gui.py:1006 | The union of the records' keys covers every record and keeps the starting header as a prefix. |
| Collection.ExportAllColumnsRule | message_generator_gui.py:999-1008 | The corrected export is refused iff the list is empty and never raises. Every record fits, no column repeats, and the header begins with the first record's keys. |
| Collection.ExportsAgreeWhenAllFit | message_generator_gui.py:999-1008 | When every record fits the first record's keys, the corrected export equals the original one. |
| Dicts.Get | message_generator_gui.py:775 | `d.get(k)` finds nothing iff `k` is not a key. |
| Dicts.Set | message_generator_gui.py:927-930 | After `d[k] = v`, `k` looks up `v` and every other key looks up what it did. |
| Dicts.SetKeys | message_generator_gui.py:977 | Assigning an existing key keeps every key in place; a new key is appended. |
| Dicts.SameDictIffSameLookups | message_generator_gui.py:995 | Dict `==` holds iff every lookup agrees, whatever the insertion order. |
| Dicts.SetAllIdempotent | message_generator_gui.py:977-987 | On a real dict, repeating a run of distinct assignments changes nothing further. |
| Webhooks.LoadWebhooks | message_generator_gui.py:1029-1042 | The stored configuration when one could be read; otherwise the defaults. |
| Webhooks.DefaultWebhooksEmpty | message_generator_gui.py:1030-1035 | The defaults have exactly the four keys `warning`, `technical`, `create_warn` and `create_ban`, each once, and every lookup in them gives "". |
| Webhooks.NoConfigNoPost | message_generator_gui.py:1036-1042 | Without a configuration file, a submission makes no POST and reports failure. |
| Webhooks.WithUrlsLookups | message_generator_gui.py:927-930 | After saving, each form's URL is what was typed for it, and every other key keeps its value. |
| Webhooks.WithUrlsKeys | message_generator_gui.py:927-930 | Saving keeps the configuration a real dict with its keys in place, adding only the four webhook keys. |
| Generator.AfterRemovalFollows | message_generator_gui.py:995 | After `list.remove` drops position `removed`, the edit form is closed iff it was open on that position; otherwise its new position holds the same record as before, as the reference `current_complaint` does. |
| Generator.App.constructor | message_generator_gui.py:99-102 | The loaded records (none when unreadable), the `load_webhooks` configuration, and no record open. |
| Generator.App.Submit | message_generator_gui.py:772-775 | Appends one record at the end, leaving earlier records unchanged, and posts the message to the configured URL of that type. |
| Generator.App.GenerateWarning | message_generator_gui.py:729-777 | A rejected form changes nothing and sends nothing. An accepted form appends its Warning record and delivers its message to the "warning" URL. |
| Generator.App.GenerateTechnical | message_generator_gui.py:779-828 | The same for the Technical form, on the stripped mentions, with the "technical" URL. |
| Generator.App.GenerateCreateWarn | message_generator_gui.py:830-876 | The same for the CreateWarn form, with the "create_warn" URL. |
| Generator.App.GenerateCreateBan | message_generator_gui.py:878-924 | The same for the CreateBan form, with the "create_ban" URL. |
| Generator.App.SaveWebhooks | message_generator_gui.py:926-930 | The four URLs are assigned into the configuration; nothing else changes. |
| Generator.App.ShowEditComplaint | message_generator_gui.py:689-727 | Opens the edit form on the record and fills it from that record; the list is unchanged. |
| Generator.App.SaveEditedComplaint | message_generator_gui.py:973-991 | No-op when no record is open or it is empty. Otherwise only the open record changes, by the eleven assignments, in its place. |
| Generator.App.ExportToCsv | message_generator_gui.py:999-1008 | Refused iff the list is empty. The header is the first record's keys. It succeeds iff every record fits, with one row per record. Otherwise it raises at the first record with an extra key, after the rows before it. A successful export of a real-dict first record equals the corrected export. |
| Generator.App.DeleteComplaint | message_generator_gui.py:993-997 | A cancelled delete changes nothing. A missing record raises and changes nothing. Otherwise the first equal record is removed. The edit form closes iff it was open on that record, and otherwise stays on the same record. |

## Left out

- The widgets, navigation and dialogs (`create_*_section`, `show_*` apart from the filling of
  the edit form, `toggle_*`, `update_complaints_list`, `messagebox`). `show_edit_complaint`'s
  title line is left out too.
- `pyperclip.copy`: the message is returned instead of copied.
- Update checks and installation (`check_for_updates`, `download_and_install_update`),
  `resource_path`, icons and logos.
- `requests.post` and `time.sleep`: an attempt oracle and a trace of events stand for them.
  No real timing and no request payload beyond its content, URL and timeout.
- `datetime.now()`: the record id and the display timestamp are the parameter `Clock`. Every
  handler reads the clock twice, once for each; the model takes both readings as given.
- `self.trans`: the translated labels of the Technical message are the parameter
  `TechnicalLabels`. The error dialogs are the datatype `ValidationError`.
- The console diagnostics (`print`): those of `send_to_webhook` (lines 39, 48 and 50),
  `resource_path` and the icon, logo and update code, and the error messages of
  `load_complaints`, `save_complaints`, `load_webhooks` and `save_webhooks`. They change no
  state and no result.
- `validators.url`: the parameter `isUrl`, an uninterpreted predicate.
- Forms.ValidateWarning, Forms.ValidateTechnical, Forms.ValidatePlayer: `str.isdigit` is modelled
  as "non-empty and every character an ASCII digit". Python also accepts other Unicode digits.
- Text.Strip: `str.strip()` removes the whitespace characters listed in `Text.Whitespace`.
  There is no Unicode database here.
- JSON and CSV files. The model covers neither reading nor writing `complaints.json` and
  `config.json` (`load_complaints`, `save_complaints`, the file half of `save_webhooks` and
  `load_webhooks`), nor the CSV text. The stored records and the stored configuration reach the
  constructor as `Option` values, `None` when the file is missing or unreadable. The export yields
  the header and rows that `DictWriter` would write.
- Generator.App: `Valid` does not include that every record holds no key twice. `json.load`
  always yields such records. Each method that changes the list instead ensures that the property
  carries over from the old list to the new one.
- Records.Field: record keys are a datatype. The keys the program writes are constructors. Any
  other key, which only a hand-edited file can hold, is `Other(name)`; such a name is assumed not
  to coincide with one of the program's own key names. The program's own keys have distinct
  names (`Records.FieldNameInjective`).
- Generator.App.DeleteComplaint: deleting the record the edit form is open on closes the form
  (`selected` becomes `None`). In the program `current_complaint` still refers to the removed
  dict, and a later save writes into that dict, which is no longer in the list. Either way the
  list is the same; the model does not keep the orphaned dict.
- Records: a record's values are strings. A hand-edited file could hold other JSON values.
- The exception that `delete_complaint` or `export_to_csv` raises is a result value
  (`NoSuchRecord`, `ExtraFields`). The Tk event loop, which reports it and carries on, is not
  modelled.

## Findings

| source | as written | input that shows it | evidently intended | confidence | as-written member | corrected member |
|---|---|---|---|---|---|---|
| message_generator_gui.py:1006-1008 | `csv.DictWriter(file, fieldnames=self.complaints[0].keys())` followed by `writerows(self.complaints)`. `DictWriter` raises `ValueError` on a row with a key outside the header. | A Warning record first and a Technical record second: `complainant_mention` is not among the Warning keys, so the export raises after writing one row. | Every record exported, with the union of all records' keys as the columns. | not executed | Collection.ExportWarningThenTechnical | Collection.ExportAllColumnsRule |

Columns are not silently dropped. The code raises at the first record with an extra key, and
leaves a file with the header and the rows before it. `Collection.Export` models the code as
written. The corrected export
(`Collection.ExportAllColumns`) takes the union of all keys, the first record's first, and is the
proposed fix. `Generator.App.ExportToCsv` keeps the handler as written and states that, when
every record already fits, its result is the corrected export. The two agree on such lists
(`Collection.ExportsAgreeWhenAllFit`).
