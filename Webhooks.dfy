/**
 * The webhook configuration: a dict from a form's record type to the URL its messages are
 * posted to, as `load_webhooks` returns it, `save_webhooks` fills it and the handlers read it
 * with `self.webhooks.get(type, "")`.
 */
module Webhooks {
  import opened Wrappers
  import opened Dicts
  import opened Records
  import Delivery

  /** The configuration: keys are record types, values are URLs. */
  type Config = Dict<string>

  /** The four keys of the configuration, one per form. */
  const WebhookKeys: seq<string> := [WarningType, TechnicalType, CreateWarnType, CreateBanType]

  /** The configuration `load_webhooks` falls back on: every form's URL empty. */
  const DefaultWebhooks: Config :=
    [(WarningType, ""), (TechnicalType, ""), (CreateWarnType, ""), (CreateBanType, "")]

  /**
   * `load_webhooks`: the dict stored in the configuration file when there is one that reads,
   * the defaults otherwise (`persisted` is `None` when the file is missing or unreadable).
   */
  function LoadWebhooks(persisted: Option<Config>): (r: Config)
    ensures persisted.None? ==> r == DefaultWebhooks
    ensures persisted.Some? ==> r == persisted.value
  {
    persisted.GetOr(DefaultWebhooks)
  }

  /** The URL a handler posts to: `self.webhooks.get(recordType, "")`. */
  function WebhookUrl(config: Config, recordType: string): string
  {
    GetOr(config, recordType, "")
  }

  /**
   * The defaults have exactly the four keys, each once, and every lookup in them, of those
   * keys or any other, gives the empty URL.
   */
  lemma DefaultWebhooksEmpty(recordType: string)
    ensures Keys(DefaultWebhooks) == WebhookKeys && UniqueKeys(DefaultWebhooks)
    ensures WebhookUrl(DefaultWebhooks, recordType) == ""
  {
    var d := DefaultWebhooks;
    forall i | 0 <= i < |d| ensures Keys(d)[i] == WebhookKeys[i] {
      KeysAt(d, i);
    }
    EntryKeysDistinct(d);
    if recordType in Keys(d) {
      var i :| 0 <= i < |d| && Keys(d)[i] == recordType;
      KeysAt(d, i);
      GetAt(d, i);
    }
  }

  /**
   * Without a configuration file, a submission makes no POST and reports failure, whatever
   * the form and whatever the server would have answered.
   */
  lemma NoConfigNoPost(recordType: string, message: string, outcome: nat -> Delivery.Attempt)
    ensures var url := WebhookUrl(LoadWebhooks(None), recordType);
      Delivery.Deliver(message, url, outcome, Delivery.DefaultRetries, Delivery.DefaultDelay)
      == Delivery.Run(false, [])
  {
    DefaultWebhooksEmpty(recordType);
  }

  /** `save_webhooks`: the four entries of the webhook screen assigned in turn. */
  function WithUrls(config: Config, warning: string, technical: string,
                    createWarn: string, createBan: string): Config
  {
    Set(Set(Set(Set(config, WarningType, warning), TechnicalType, technical),
            CreateWarnType, createWarn), CreateBanType, createBan)
  }

  /**
   * After saving, each form's handler posts to the URL typed for it, and every other key of
   * the configuration keeps its value; existing keys keep their places.
   */
  lemma WithUrlsLookups(config: Config, warning: string, technical: string,
                        createWarn: string, createBan: string, k: string)
    ensures var c := WithUrls(config, warning, technical, createWarn, createBan);
      && WebhookUrl(c, WarningType) == warning
      && WebhookUrl(c, TechnicalType) == technical
      && WebhookUrl(c, CreateWarnType) == createWarn
      && WebhookUrl(c, CreateBanType) == createBan
      && (k !in WebhookKeys ==> Get(c, k) == Get(config, k))
  {
  }

  /** Saving keeps the configuration a real dict and its keys where they were. */
  lemma WithUrlsKeys(config: Config, warning: string, technical: string,
                     createWarn: string, createBan: string)
    ensures Extends(config, WithUrls(config, warning, technical, createWarn, createBan), WebhookKeys)
  {
    var c1 := Set(config, WarningType, warning);
    var c2 := Set(c1, TechnicalType, technical);
    var c3 := Set(c2, CreateWarnType, createWarn);
    SetExtends(config, WarningType, warning);
    SetExtends(c1, TechnicalType, technical);
    SetExtends(c2, CreateWarnType, createWarn);
    SetExtends(c3, CreateBanType, createBan);
    ExtendsTrans(config, c1, c2, [WarningType], [TechnicalType]);
    ExtendsTrans(config, c2, c3, [WarningType, TechnicalType], [CreateWarnType]);
    ExtendsTrans(config, c3, Set(c3, CreateBanType, createBan),
                 [WarningType, TechnicalType, CreateWarnType], [CreateBanType]);
  }
}
