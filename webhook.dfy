/**
  The Account Activity webhook endpoints (webhook.go). Each wrapper cleans the
  caller's form, picks a URL from the base URL, the environment name, the webhook
  id and the API tier, picks a method code, and submits the query with a decode
  target. The request each wrapper builds is a function here; the wrapper itself
  is a method that hands that request to the dispatcher and returns what came back.
*/
module Webhook {
  import opened Base
  import opened Values
  import opened Twitter

  const EnterpriseAPITier: string := "enterprise"
  const PremiumAPITier: string := "premium"

  /** The URL starts with the base URL followed by a slash. */
  ghost predicate UnderBase(baseUrl: string, url: string) {
    |url| > |baseUrl| && url[..|baseUrl|] == baseUrl && url[|baseUrl|] == '/'
  }

  /** A request for the webhook API: the caller's form cleaned, a decode target. */
  ghost predicate WebhookRequest(r: Request, v: Form, methodCode: int) {
    && r.form.Values? && Entries(r.form) == Entries(v)
    && (v.Values? ==> r.form == v)
    && r.methodCode == methodCode
    && r.target == Some(AnyValue)
  }

  /** `getWebhookURL`: the premium tier addresses the environment, every other tier
      the webhook id. */
  function WebhookURL(baseURL: string, apiTier: string, envName: string, webhookID: string): (r: string)
    ensures UnderBase(baseURL, r)
    ensures Contains(r, if apiTier == PremiumAPITier then envName else webhookID)
  {
    if apiTier == PremiumAPITier then
      var pre := baseURL + "/account_activity/all/";
      ContainsHalves(pre, envName);
      ContainsExtended(pre + envName, envName, "/subscriptions.json");
      pre + envName + "/subscriptions.json"
    else
      var pre := baseURL + "/account_activity/webhooks/";
      ContainsHalves(pre, webhookID);
      ContainsExtended(pre + webhookID, webhookID, "/subscriptions/all.json");
      pre + webhookID + "/subscriptions/all.json"
  }

  function GetAppActivityWebhooksRequest(baseUrl: string, v: Form, envName: string, webhookID: string,
                                         apiTier: string): (r: Request)
    ensures WebhookRequest(r, v, GET) && UnderBase(baseUrl, r.url)
  {
    var url := baseUrl + "/account_activity/all/webhooks.json";
    assert url[|baseUrl|] == "/account_activity/all/webhooks.json"[0];
    Request(url, CleanValues(v), GET, Some(AnyValue))
  }

  function CountAppActivityWebhooksRequest(baseUrl: string, v: Form): (r: Request)
    ensures WebhookRequest(r, v, GET) && UnderBase(baseUrl, r.url)
  {
    var url := baseUrl + "/account_activity/subscriptions/count.json";
    assert url[|baseUrl|] == "/account_activity/subscriptions/count.json"[0];
    Request(url, CleanValues(v), GET, Some(AnyValue))
  }

  function SetAppActivityWebhooksRequest(baseUrl: string, v: Form, envName: string, apiTier: string): (r: Request)
    ensures WebhookRequest(r, v, POST) && UnderBase(baseUrl, r.url)
  {
    Request(baseUrl + "/account_activity/all/" + envName + "/webhooks.json", CleanValues(v), POST, Some(AnyValue))
  }

  /** The URL of one webhook: by id alone on the enterprise tier, by environment and
      id on every other tier. */
  function AppActivityWebhookURL(baseUrl: string, envName: string, webhookID: string, apiTier: string): (r: string)
    ensures UnderBase(baseUrl, r)
    ensures Contains(r, webhookID)
    ensures apiTier != EnterpriseAPITier ==> Contains(r, envName)
  {
    if apiTier == EnterpriseAPITier then
      var pre := baseUrl + "/account_activity/webhooks/";
      ContainsHalves(pre, webhookID);
      ContainsExtended(pre + webhookID, webhookID, ".json");
      pre + webhookID + ".json"
    else
      var pre := baseUrl + "/account_activity/all/" + envName;
      var mid := pre + "/webhooks/";
      ContainsHalves(baseUrl + "/account_activity/all/", envName);
      ContainsExtended(pre, envName, "/webhooks/");
      ContainsExtended(mid, envName, webhookID);
      ContainsHalves(mid, webhookID);
      ContainsExtended(mid + webhookID, envName, ".json");
      ContainsExtended(mid + webhookID, webhookID, ".json");
      mid + webhookID + ".json"
  }

  function DeleteAppActivityWebhooksRequest(baseUrl: string, v: Form, envName: string, webhookID: string,
                                            apiTier: string): (r: Request)
    ensures WebhookRequest(r, v, DELETE) && UnderBase(baseUrl, r.url)
  {
    Request(AppActivityWebhookURL(baseUrl, envName, webhookID, apiTier), CleanValues(v), DELETE, Some(AnyValue))
  }

  function PutAppActivityWebhooksRequest(baseUrl: string, v: Form, envName: string, webhookID: string,
                                         apiTier: string): (r: Request)
    ensures WebhookRequest(r, v, PUT) && UnderBase(baseUrl, r.url)
  {
    Request(AppActivityWebhookURL(baseUrl, envName, webhookID, apiTier), CleanValues(v), PUT, Some(AnyValue))
  }

  function SetWHSubscriptionRequest(baseUrl: string, v: Form, envName: string, webhookID: string,
                                    apiTier: string): (r: Request)
    ensures WebhookRequest(r, v, POST) && UnderBase(baseUrl, r.url)
  {
    Request(WebhookURL(baseUrl, apiTier, envName, webhookID), CleanValues(v), POST, Some(AnyValue))
  }

  /** The enterprise tier is not implemented: the URL is the premium one whatever the tier. */
  function GetWHSubscriptionRequest(baseUrl: string, v: Form, envName: string, webhookID: string,
                                    apiTier: string): (r: Request)
    ensures WebhookRequest(r, v, GET) && UnderBase(baseUrl, r.url)
  {
    Request(baseUrl + "/account_activity/all/" + envName + "/subscriptions.json", CleanValues(v), GET, Some(AnyValue))
  }

  /** As written, the path follows the base URL with no slash in between. */
  function GetWHSubscriptionListRequest(baseUrl: string, v: Form, envName: string, webhookID: string,
                                        apiTier: string): (r: Request)
    ensures WebhookRequest(r, v, GET)
    ensures |r.url| > |baseUrl| && r.url[..|baseUrl|] == baseUrl && r.url[|baseUrl|] == 'a'
  {
    Request(baseUrl + "account_activity/all/" + envName + "/subscriptions/list.json", CleanValues(v), GET, Some(AnyValue))
  }

  /** The URL is chosen inline, by the same test on the premium tier as `getWebhookURL`. */
  function DeleteWHSubscriptionRequest(baseUrl: string, v: Form, envName: string, webhookID: string,
                                       apiTier: string): (r: Request)
    ensures WebhookRequest(r, v, DELETE) && UnderBase(baseUrl, r.url)
  {
    if apiTier == PremiumAPITier then
      Request(baseUrl + "/account_activity/all/" + envName + "/subscriptions.json", CleanValues(v), DELETE, Some(AnyValue))
    else
      Request(baseUrl + "/account_activity/webhooks/" + webhookID + "/subscriptions/all.json", CleanValues(v), DELETE, Some(AnyValue))
  }

  /** On the premium tier the subscription URL is the one `GetWHSubscription` reads,
      whatever the webhook id; on any other tier it does not depend on the environment. */
  lemma WebhookURLByTier(baseURL: string, apiTier: string, envName: string, envName': string,
                         webhookID: string, webhookID': string, v: Form)
    ensures apiTier == PremiumAPITier ==>
      WebhookURL(baseURL, apiTier, envName, webhookID) ==
        GetWHSubscriptionRequest(baseURL, v, envName, webhookID', apiTier).url
    ensures apiTier != PremiumAPITier ==>
      WebhookURL(baseURL, apiTier, envName, webhookID) == WebhookURL(baseURL, apiTier, envName', webhookID)
  {
  }

  /** The subscription URL names what it addresses: on the premium tier two
      environments share a URL only if they are the same, on any other tier two
      webhook ids do. */
  lemma WebhookURLDeterminesAddress(baseURL: string, apiTier: string, envName: string, envName': string,
                                    webhookID: string, webhookID': string)
    requires WebhookURL(baseURL, apiTier, envName, webhookID) == WebhookURL(baseURL, apiTier, envName', webhookID')
    ensures apiTier == PremiumAPITier ==> envName == envName'
    ensures apiTier != PremiumAPITier ==> webhookID == webhookID'
  {
    if apiTier == PremiumAPITier {
      MiddleDetermined(baseURL + "/account_activity/all/", envName, envName', "/subscriptions.json");
    } else {
      MiddleDetermined(baseURL + "/account_activity/webhooks/", webhookID, webhookID', "/subscriptions/all.json");
    }
  }

  /** Deleting a subscription addresses the URL that setting it does, for the same
      arguments; only the method differs. */
  lemma DeleteWHSubscriptionMatchesSet(baseUrl: string, v: Form, envName: string, webhookID: string, apiTier: string)
    ensures DeleteWHSubscriptionRequest(baseUrl, v, envName, webhookID, apiTier).url ==
            SetWHSubscriptionRequest(baseUrl, v, envName, webhookID, apiTier).url
    ensures DeleteWHSubscriptionRequest(baseUrl, v, envName, webhookID, apiTier) ==
            SetWHSubscriptionRequest(baseUrl, v, envName, webhookID, apiTier).(methodCode := DELETE)
  {
  }

  /** Deleting and re-enabling a webhook address the same URL for the same arguments;
      on the enterprise tier that URL ignores the environment. */
  lemma DeleteAndPutAppActivityWebhooksShareURL(baseUrl: string, v: Form, envName: string, envName': string,
                                                webhookID: string, apiTier: string)
    ensures DeleteAppActivityWebhooksRequest(baseUrl, v, envName, webhookID, apiTier) ==
            PutAppActivityWebhooksRequest(baseUrl, v, envName, webhookID, apiTier).(methodCode := DELETE)
    ensures apiTier == EnterpriseAPITier ==>
      AppActivityWebhookURL(baseUrl, envName, webhookID, apiTier) ==
        AppActivityWebhookURL(baseUrl, envName', webhookID, apiTier)
  {
  }

  /** The two tier tests disagree on a tier that is neither premium nor enterprise:
      the webhook is addressed by environment and id, the subscription by id alone. */
  lemma OtherTierAddressing(baseUrl: string, v: Form, envName: string, envName': string, webhookID: string,
                            apiTier: string)
    requires apiTier != PremiumAPITier && apiTier != EnterpriseAPITier
    ensures envName != envName' ==>
      AppActivityWebhookURL(baseUrl, envName, webhookID, apiTier) !=
        AppActivityWebhookURL(baseUrl, envName', webhookID, apiTier)
    ensures SetWHSubscriptionRequest(baseUrl, v, envName, webhookID, apiTier).url ==
            SetWHSubscriptionRequest(baseUrl, v, envName', webhookID, apiTier).url
  {
    var pre := baseUrl + "/account_activity/all/";
    var s := AppActivityWebhookURL(baseUrl, envName, webhookID, apiTier);
    var s' := AppActivityWebhookURL(baseUrl, envName', webhookID, apiTier);
    assert envName == s[|pre|..|pre| + |envName|];
    assert envName' == s'[|pre|..|pre| + |envName'|];
  }

  /** The subscription lookups ignore the tier and the webhook id. */
  lemma GetWHSubscriptionsIgnoreTierAndId(baseUrl: string, v: Form, envName: string,
                                          webhookID: string, webhookID': string, apiTier: string, apiTier': string)
    ensures GetWHSubscriptionRequest(baseUrl, v, envName, webhookID, apiTier) ==
            GetWHSubscriptionRequest(baseUrl, v, envName, webhookID', apiTier')
    ensures GetWHSubscriptionListRequest(baseUrl, v, envName, webhookID, apiTier) ==
            GetWHSubscriptionListRequest(baseUrl, v, envName, webhookID', apiTier')
  {
  }

  /** Unlike every other endpoint, the subscription list is not under the base URL. */
  lemma GetWHSubscriptionListNotUnderBase(baseUrl: string, v: Form, envName: string, webhookID: string, apiTier: string)
    ensures !UnderBase(baseUrl, GetWHSubscriptionListRequest(baseUrl, v, envName, webhookID, apiTier).url)
    ensures UnderBase(baseUrl, GetWHSubscriptionRequest(baseUrl, v, envName, webhookID, apiTier).url)
  {
  }

  /** The dispatcher routes only `_GET` and `_POST`: the delete and put requests get
      "HTTP method not yet supported" and no call is made. */
  lemma DeleteAndPutAreRefused(env: Environment, creds: Credentials, now: int, ch: nat,
                               baseUrl: string, v: Form, envName: string, webhookID: string, apiTier: string)
    ensures var q := QueryFor(DeleteAppActivityWebhooksRequest(baseUrl, v, envName, webhookID, apiTier), ch);
      ExecQuery(env, creds, now, q).outcome.err == Some(Message(NotSupported))
    ensures var q := QueryFor(PutAppActivityWebhooksRequest(baseUrl, v, envName, webhookID, apiTier), ch);
      ExecQuery(env, creds, now, q).outcome.err == Some(Message(NotSupported))
    ensures var q := QueryFor(DeleteWHSubscriptionRequest(baseUrl, v, envName, webhookID, apiTier), ch);
      ExecQuery(env, creds, now, q).outcome.err == Some(Message(NotSupported))
  {
  }

  method GetAppActivityWebhooks(api: TwitterApi, v: Form, envName: string, webhookID: string, apiTier: string)
    returns (u: Option<string>, err: Option<Error>)
    requires api.Valid()
    modifies api
    ensures api.Valid() && api.queue == []
    ensures api.Answered(GetAppActivityWebhooksRequest(api.baseUrl, v, envName, webhookID, apiTier), old(api.channels))
    ensures api.delay == old(api.delay)
    ensures var t := old(api.Planned(GetAppActivityWebhooksRequest(api.baseUrl, v, envName, webhookID, apiTier)));
      api.delivered == old(api.delivered) + t.log && api.hist.starts == old(api.hist.starts) + t.starts &&
      api.clock == t.clock
    ensures api.clock >= Last(api.hist.starts) + api.delay
    ensures u == Last(api.delivered).resp.stored && err == Last(api.delivered).resp.err
  {
    var resp := api.Submit(GetAppActivityWebhooksRequest(api.baseUrl, v, envName, webhookID, apiTier));
    u, err := resp.stored, resp.err;
  }

  method CountAppActivityWebhooks(api: TwitterApi, v: Form) returns (u: Option<string>, err: Option<Error>)
    requires api.Valid()
    modifies api
    ensures api.Valid() && api.queue == []
    ensures api.Answered(CountAppActivityWebhooksRequest(api.baseUrl, v), old(api.channels))
    ensures api.delay == old(api.delay)
    ensures var t := old(api.Planned(CountAppActivityWebhooksRequest(api.baseUrl, v)));
      api.delivered == old(api.delivered) + t.log && api.hist.starts == old(api.hist.starts) + t.starts &&
      api.clock == t.clock
    ensures api.clock >= Last(api.hist.starts) + api.delay
    ensures u == Last(api.delivered).resp.stored && err == Last(api.delivered).resp.err
  {
    var resp := api.Submit(CountAppActivityWebhooksRequest(api.baseUrl, v));
    u, err := resp.stored, resp.err;
  }

  method SetAppActivityWebhooks(api: TwitterApi, v: Form, envName: string, apiTier: string)
    returns (u: Option<string>, err: Option<Error>)
    requires api.Valid()
    modifies api
    ensures api.Valid() && api.queue == []
    ensures api.Answered(SetAppActivityWebhooksRequest(api.baseUrl, v, envName, apiTier), old(api.channels))
    ensures api.delay == old(api.delay)
    ensures var t := old(api.Planned(SetAppActivityWebhooksRequest(api.baseUrl, v, envName, apiTier)));
      api.delivered == old(api.delivered) + t.log && api.hist.starts == old(api.hist.starts) + t.starts &&
      api.clock == t.clock
    ensures api.clock >= Last(api.hist.starts) + api.delay
    ensures u == Last(api.delivered).resp.stored && err == Last(api.delivered).resp.err
  {
    var resp := api.Submit(SetAppActivityWebhooksRequest(api.baseUrl, v, envName, apiTier));
    u, err := resp.stored, resp.err;
  }

  method DeleteAppActivityWebhooks(api: TwitterApi, v: Form, envName: string, webhookID: string, apiTier: string)
    returns (u: Option<string>, err: Option<Error>)
    requires api.Valid()
    modifies api
    ensures api.Valid() && api.queue == []
    ensures api.Answered(DeleteAppActivityWebhooksRequest(api.baseUrl, v, envName, webhookID, apiTier), old(api.channels))
    ensures api.delay == old(api.delay)
    ensures var t := old(api.Planned(DeleteAppActivityWebhooksRequest(api.baseUrl, v, envName, webhookID, apiTier)));
      api.delivered == old(api.delivered) + t.log && api.hist.starts == old(api.hist.starts) + t.starts &&
      api.clock == t.clock
    ensures api.clock >= Last(api.hist.starts) + api.delay
    ensures u == Last(api.delivered).resp.stored && err == Last(api.delivered).resp.err
  {
    var resp := api.Submit(DeleteAppActivityWebhooksRequest(api.baseUrl, v, envName, webhookID, apiTier));
    u, err := resp.stored, resp.err;
  }

  method PutAppActivityWebhooks(api: TwitterApi, v: Form, envName: string, webhookID: string, apiTier: string)
    returns (u: Option<string>, err: Option<Error>)
    requires api.Valid()
    modifies api
    ensures api.Valid() && api.queue == []
    ensures api.Answered(PutAppActivityWebhooksRequest(api.baseUrl, v, envName, webhookID, apiTier), old(api.channels))
    ensures api.delay == old(api.delay)
    ensures var t := old(api.Planned(PutAppActivityWebhooksRequest(api.baseUrl, v, envName, webhookID, apiTier)));
      api.delivered == old(api.delivered) + t.log && api.hist.starts == old(api.hist.starts) + t.starts &&
      api.clock == t.clock
    ensures api.clock >= Last(api.hist.starts) + api.delay
    ensures u == Last(api.delivered).resp.stored && err == Last(api.delivered).resp.err
  {
    var resp := api.Submit(PutAppActivityWebhooksRequest(api.baseUrl, v, envName, webhookID, apiTier));
    u, err := resp.stored, resp.err;
  }

  method SetWHSubscription(api: TwitterApi, v: Form, envName: string, webhookID: string, apiTier: string)
    returns (u: Option<string>, err: Option<Error>)
    requires api.Valid()
    modifies api
    ensures api.Valid() && api.queue == []
    ensures api.Answered(SetWHSubscriptionRequest(api.baseUrl, v, envName, webhookID, apiTier), old(api.channels))
    ensures api.delay == old(api.delay)
    ensures var t := old(api.Planned(SetWHSubscriptionRequest(api.baseUrl, v, envName, webhookID, apiTier)));
      api.delivered == old(api.delivered) + t.log && api.hist.starts == old(api.hist.starts) + t.starts &&
      api.clock == t.clock
    ensures api.clock >= Last(api.hist.starts) + api.delay
    ensures u == Last(api.delivered).resp.stored && err == Last(api.delivered).resp.err
  {
    var resp := api.Submit(SetWHSubscriptionRequest(api.baseUrl, v, envName, webhookID, apiTier));
    u, err := resp.stored, resp.err;
  }

  method GetWHSubscription(api: TwitterApi, v: Form, envName: string, webhookID: string, apiTier: string)
    returns (u: Option<string>, err: Option<Error>)
    requires api.Valid()
    modifies api
    ensures api.Valid() && api.queue == []
    ensures api.Answered(GetWHSubscriptionRequest(api.baseUrl, v, envName, webhookID, apiTier), old(api.channels))
    ensures api.delay == old(api.delay)
    ensures var t := old(api.Planned(GetWHSubscriptionRequest(api.baseUrl, v, envName, webhookID, apiTier)));
      api.delivered == old(api.delivered) + t.log && api.hist.starts == old(api.hist.starts) + t.starts &&
      api.clock == t.clock
    ensures api.clock >= Last(api.hist.starts) + api.delay
    ensures u == Last(api.delivered).resp.stored && err == Last(api.delivered).resp.err
  {
    var resp := api.Submit(GetWHSubscriptionRequest(api.baseUrl, v, envName, webhookID, apiTier));
    u, err := resp.stored, resp.err;
  }

  method GetWHSubscriptionList(api: TwitterApi, v: Form, envName: string, webhookID: string, apiTier: string)
    returns (u: Option<string>, err: Option<Error>)
    requires api.Valid()
    modifies api
    ensures api.Valid() && api.queue == []
    ensures api.Answered(GetWHSubscriptionListRequest(api.baseUrl, v, envName, webhookID, apiTier), old(api.channels))
    ensures api.delay == old(api.delay)
    ensures var t := old(api.Planned(GetWHSubscriptionListRequest(api.baseUrl, v, envName, webhookID, apiTier)));
      api.delivered == old(api.delivered) + t.log && api.hist.starts == old(api.hist.starts) + t.starts &&
      api.clock == t.clock
    ensures api.clock >= Last(api.hist.starts) + api.delay
    ensures u == Last(api.delivered).resp.stored && err == Last(api.delivered).resp.err
  {
    var resp := api.Submit(GetWHSubscriptionListRequest(api.baseUrl, v, envName, webhookID, apiTier));
    u, err := resp.stored, resp.err;
  }

  method DeleteWHSubscription(api: TwitterApi, v: Form, envName: string, webhookID: string, apiTier: string)
    returns (u: Option<string>, err: Option<Error>)
    requires api.Valid()
    modifies api
    ensures api.Valid() && api.queue == []
    ensures api.Answered(DeleteWHSubscriptionRequest(api.baseUrl, v, envName, webhookID, apiTier), old(api.channels))
    ensures api.delay == old(api.delay)
    ensures var t := old(api.Planned(DeleteWHSubscriptionRequest(api.baseUrl, v, envName, webhookID, apiTier)));
      api.delivered == old(api.delivered) + t.log && api.hist.starts == old(api.hist.starts) + t.starts &&
      api.clock == t.clock
    ensures api.clock >= Last(api.hist.starts) + api.delay
    ensures u == Last(api.delivered).resp.stored && err == Last(api.delivered).resp.err
  {
    var resp := api.Submit(DeleteWHSubscriptionRequest(api.baseUrl, v, envName, webhookID, apiTier));
    u, err := resp.stored, resp.err;
  }
}
