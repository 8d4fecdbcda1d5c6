/**
  The direct message endpoints (directmessages.go). The senders build a fresh form
  by setting one key at a time, rendering 64-bit ids in decimal; the readers pass
  the caller's form through untouched. Each response is decoded into the Go type
  the wrapper returns, except the typing indicator's, which is not decoded at all.
*/
module DirectMessages {
  import opened Base
  import opened Values
  import opened Strconv
  import opened Twitter

  /** The keys of the form are exactly `keys`, each set once. */
  ghost predicate FormOf(f: Form, keys: set<string>) {
    f.Values? && Entries(f).Keys == keys && SingleValued(f)
  }

  /** `url.Values{}` with `screen_name` and then `text` set. */
  function ScreenNameForm(text: string, screenName: string): (f: Form)
    ensures FormOf(f, {"screen_name", "text"})
    ensures Get(f, "screen_name") == screenName && Get(f, "text") == text
  {
    Set(Set(Empty, "screen_name", screenName), "text", text)
  }

  /** `url.Values{}` with `user_id`, in decimal, and then `text` set. */
  function UserIdForm(text: string, userId: Int64): (f: Form)
    ensures FormOf(f, {"user_id", "text"})
    ensures ParseInt(Get(f, "user_id")) == Some(userId) && Get(f, "text") == text
  {
    ParseFormatInt(userId);
    Set(Set(Empty, "user_id", FormatInt(userId)), "text", text)
  }

  /** `url.Values{}` with the one key `key` set to `id` in decimal. */
  function IdForm(key: string, id: Int64): (f: Form)
    ensures FormOf(f, {key})
    ensures ParseInt(Get(f, key)) == Some(id)
  {
    ParseFormatInt(id);
    Set(Empty, key, FormatInt(id))
  }

  /** The request of `postDirectMessagesImpl`: the form as given, posted to
      new.json, decoded into a DirectMessage. */
  function PostDirectMessagesImplRequest(baseUrl: string, v: Form): (r: Request)
    ensures r.form == v && r.methodCode == POST && r.target == Some(DirectMessageRecord)
  {
    Request(baseUrl + "/direct_messages/new.json", v, POST, Some(DirectMessageRecord))
  }

  /** Both ways of sending a message post to the same endpoint; they differ only in
      how the recipient is named in the form. */
  lemma PostDMRequestsShareEndpoint(baseUrl: string, text: string, screenName: string, userId: Int64)
    ensures PostDirectMessagesImplRequest(baseUrl, ScreenNameForm(text, screenName)) ==
            PostDirectMessagesImplRequest(baseUrl, UserIdForm(text, userId)).(form := ScreenNameForm(text, screenName))
  {
  }

  /** `DeleteDirectMessage`'s request; `includeEntities` is not used. */
  function DeleteDirectMessageRequest(baseUrl: string, id: Int64, includeEntities: bool): (r: Request)
    ensures FormOf(r.form, {"id"}) && ParseInt(Get(r.form, "id")) == Some(id)
    ensures r.methodCode == POST && r.target == Some(DirectMessageRecord)
  {
    Request(baseUrl + "/direct_messages/events/destroy.json", IdForm("id", id), POST, Some(DirectMessageRecord))
  }

  lemma DeleteDirectMessageIgnoresIncludeEntities(baseUrl: string, id: Int64)
    ensures DeleteDirectMessageRequest(baseUrl, id, true) == DeleteDirectMessageRequest(baseUrl, id, false)
  {
  }

  /** Distinct ids give distinct delete requests: the id is all the form carries. */
  lemma DeleteDirectMessageAddressesId(baseUrl: string, id: Int64, id': Int64, includeEntities: bool)
    requires DeleteDirectMessageRequest(baseUrl, id, includeEntities) == DeleteDirectMessageRequest(baseUrl, id', includeEntities)
    ensures id == id'
  {
  }

  /** `IndicateTyping`'s request: no decode target. */
  function IndicateTypingRequest(baseUrl: string, id: Int64): (r: Request)
    ensures FormOf(r.form, {"recipient_id"}) && ParseInt(Get(r.form, "recipient_id")) == Some(id)
    ensures r.methodCode == POST && r.target == None
  {
    Request(baseUrl + "/direct_messages/indicate_typing.json", IdForm("recipient_id", id), POST, None)
  }

  /** With no decode target nothing is ever stored; only the error comes back. */
  lemma IndicateTypingStoresNothing(env: Environment, creds: Credentials, now: int, ch: nat,
                                    baseUrl: string, id: Int64)
    ensures var q := QueryFor(IndicateTypingRequest(baseUrl, id), ch);
      q.data == NoTarget && ExecQuery(env, creds, now, q).outcome.stored == None
  {
  }

  /**
    As written, the typing indicator never reports success. Its query has no decode
    target, and encoding/json refuses to decode into nil, so even a 200 answer is an
    error; every other answer is an error anyway.
  */
  lemma IndicateTypingNeverSucceeds(env: Environment, creds: Credentials, now: int, ch: nat,
                                    baseUrl: string, id: Int64)
    ensures ExecQuery(env, creds, now, QueryFor(IndicateTypingRequest(baseUrl, id), ch)).outcome.err.Some?
  {
    var q := QueryFor(IndicateTypingRequest(baseUrl, id), ch);
    var x := env.transport(now, creds, HttpPost, q.url, q.form);
    if x.reply.Received? {
      assert ApiCall(env, creds, now, HttpPost, q.url, q.form, q.data).outcome ==
             DecodeResponse(env, x.reply.resp, NoTarget);
    }
  }

  /**
    The typing indicator as evidently intended: the answer is decoded into a value
    that is then discarded, so a 200 with a well-formed body reports no error.
  */
  function IndicateTypingIntendedRequest(baseUrl: string, id: Int64): (r: Request)
    ensures FormOf(r.form, {"recipient_id"}) && ParseInt(Get(r.form, "recipient_id")) == Some(id)
    ensures r.methodCode == POST && r.target == Some(AnyValue)
  {
    IndicateTypingRequest(baseUrl, id).(target := Some(AnyValue))
  }

  /** With a decode target, a 200 whose body decodes is a success; anything else is
      still reported as an error. */
  lemma IndicateTypingIntendedSucceeds(env: Environment, creds: Credentials, now: int, ch: nat,
                                       baseUrl: string, id: Int64)
    ensures var q := QueryFor(IndicateTypingIntendedRequest(baseUrl, id), ch);
      var x := env.transport(now, creds, HttpPost, q.url, q.form);
      ExecQuery(env, creds, now, q).outcome.err.None? <==>
        x.reply.Received? && x.reply.resp.status == 200 && env.decodes(q.data, x.reply.resp.body)
  {
    var q := QueryFor(IndicateTypingIntendedRequest(baseUrl, id), ch);
    var x := env.transport(now, creds, HttpPost, q.url, q.form);
    assert q.data == Ref(ch, AnyValue);
    if x.reply.Received? {
      assert ApiCall(env, creds, now, HttpPost, q.url, q.form, q.data).outcome ==
             DecodeResponse(env, x.reply.resp, q.data);
    }
  }

  /** The readers: a GET with the caller's form as it is, which may be nil. */
  function GetDirectMessagesListRequest(baseUrl: string, v: Form): (r: Request)
    ensures r.form == v && r.methodCode == GET && r.target == Some(DMEventListRecord)
  {
    Request(baseUrl + "/direct_messages/events/list.json", v, GET, Some(DMEventListRecord))
  }

  function GetDirectMessagesSentRequest(baseUrl: string, v: Form): (r: Request)
    ensures r.form == v && r.methodCode == GET && r.target == Some(DirectMessageList)
  {
    Request(baseUrl + "/direct_messages/sent.json", v, GET, Some(DirectMessageList))
  }

  function GetDirectMessagesShowRequest(baseUrl: string, v: Form): (r: Request)
    ensures r.form == v && r.methodCode == GET && r.target == Some(DirectMessageRecord)
  {
    Request(baseUrl + "/direct_messages/events/show.json", v, GET, Some(DirectMessageRecord))
  }

  /** The three readers address three different endpoints. */
  lemma GetDirectMessagesEndpointsDiffer(baseUrl: string, v: Form)
    ensures GetDirectMessagesListRequest(baseUrl, v).url != GetDirectMessagesSentRequest(baseUrl, v).url
    ensures GetDirectMessagesListRequest(baseUrl, v).url != GetDirectMessagesShowRequest(baseUrl, v).url
    ensures GetDirectMessagesSentRequest(baseUrl, v).url != GetDirectMessagesShowRequest(baseUrl, v).url
  {
    var n := |baseUrl|;
    var list := GetDirectMessagesListRequest(baseUrl, v).url;
    var sent := GetDirectMessagesSentRequest(baseUrl, v).url;
    var show := GetDirectMessagesShowRequest(baseUrl, v).url;
    assert |list| != |sent| && |sent| != |show|;
    assert list[n + 24] == 'l' && show[n + 24] == 's';
  }

  method GetDirectMessagesList(api: TwitterApi, v: Form) returns (messages: Option<string>, err: Option<Error>)
    requires api.Valid()
    modifies api
    ensures api.Valid() && api.queue == []
    ensures api.Answered(GetDirectMessagesListRequest(api.baseUrl, v), old(api.channels))
    ensures api.delay == old(api.delay)
    ensures var t := old(api.Planned(GetDirectMessagesListRequest(api.baseUrl, v)));
      api.delivered == old(api.delivered) + t.log && api.hist.starts == old(api.hist.starts) + t.starts &&
      api.clock == t.clock
    ensures api.clock >= Last(api.hist.starts) + api.delay
    ensures messages == Last(api.delivered).resp.stored && err == Last(api.delivered).resp.err
  {
    var resp := api.Submit(GetDirectMessagesListRequest(api.baseUrl, v));
    messages, err := resp.stored, resp.err;
  }

  method GetDirectMessagesSent(api: TwitterApi, v: Form) returns (messages: Option<string>, err: Option<Error>)
    requires api.Valid()
    modifies api
    ensures api.Valid() && api.queue == []
    ensures api.Answered(GetDirectMessagesSentRequest(api.baseUrl, v), old(api.channels))
    ensures api.delay == old(api.delay)
    ensures var t := old(api.Planned(GetDirectMessagesSentRequest(api.baseUrl, v)));
      api.delivered == old(api.delivered) + t.log && api.hist.starts == old(api.hist.starts) + t.starts &&
      api.clock == t.clock
    ensures api.clock >= Last(api.hist.starts) + api.delay
    ensures messages == Last(api.delivered).resp.stored && err == Last(api.delivered).resp.err
  {
    var resp := api.Submit(GetDirectMessagesSentRequest(api.baseUrl, v));
    messages, err := resp.stored, resp.err;
  }

  method GetDirectMessagesShow(api: TwitterApi, v: Form) returns (message: Option<string>, err: Option<Error>)
    requires api.Valid()
    modifies api
    ensures api.Valid() && api.queue == []
    ensures api.Answered(GetDirectMessagesShowRequest(api.baseUrl, v), old(api.channels))
    ensures api.delay == old(api.delay)
    ensures var t := old(api.Planned(GetDirectMessagesShowRequest(api.baseUrl, v)));
      api.delivered == old(api.delivered) + t.log && api.hist.starts == old(api.hist.starts) + t.starts &&
      api.clock == t.clock
    ensures api.clock >= Last(api.hist.starts) + api.delay
    ensures message == Last(api.delivered).resp.stored && err == Last(api.delivered).resp.err
  {
    var resp := api.Submit(GetDirectMessagesShowRequest(api.baseUrl, v));
    message, err := resp.stored, resp.err;
  }

  method PostDirectMessagesImpl(api: TwitterApi, v: Form) returns (message: Option<string>, err: Option<Error>)
    requires api.Valid()
    modifies api
    ensures api.Valid() && api.queue == []
    ensures api.Answered(PostDirectMessagesImplRequest(api.baseUrl, v), old(api.channels))
    ensures api.delay == old(api.delay)
    ensures var t := old(api.Planned(PostDirectMessagesImplRequest(api.baseUrl, v)));
      api.delivered == old(api.delivered) + t.log && api.hist.starts == old(api.hist.starts) + t.starts &&
      api.clock == t.clock
    ensures api.clock >= Last(api.hist.starts) + api.delay
    ensures message == Last(api.delivered).resp.stored && err == Last(api.delivered).resp.err
  {
    var resp := api.Submit(PostDirectMessagesImplRequest(api.baseUrl, v));
    message, err := resp.stored, resp.err;
  }

  method PostDMToScreenName(api: TwitterApi, text: string, screenName: string)
    returns (message: Option<string>, err: Option<Error>)
    requires api.Valid()
    modifies api
    ensures api.Valid() && api.queue == []
    ensures api.Answered(PostDirectMessagesImplRequest(api.baseUrl, ScreenNameForm(text, screenName)), old(api.channels))
    ensures api.delay == old(api.delay)
    ensures var t := old(api.Planned(PostDirectMessagesImplRequest(api.baseUrl, ScreenNameForm(text, screenName))));
      api.delivered == old(api.delivered) + t.log && api.hist.starts == old(api.hist.starts) + t.starts &&
      api.clock == t.clock
    ensures api.clock >= Last(api.hist.starts) + api.delay
    ensures message == Last(api.delivered).resp.stored && err == Last(api.delivered).resp.err
  {
    var v := Empty;
    v := Set(v, "screen_name", screenName);
    v := Set(v, "text", text);
    message, err := PostDirectMessagesImpl(api, v);
  }

  method PostDMToUserId(api: TwitterApi, text: string, userId: Int64)
    returns (message: Option<string>, err: Option<Error>)
    requires api.Valid()
    modifies api
    ensures api.Valid() && api.queue == []
    ensures api.Answered(PostDirectMessagesImplRequest(api.baseUrl, UserIdForm(text, userId)), old(api.channels))
    ensures api.delay == old(api.delay)
    ensures var t := old(api.Planned(PostDirectMessagesImplRequest(api.baseUrl, UserIdForm(text, userId))));
      api.delivered == old(api.delivered) + t.log && api.hist.starts == old(api.hist.starts) + t.starts &&
      api.clock == t.clock
    ensures api.clock >= Last(api.hist.starts) + api.delay
    ensures message == Last(api.delivered).resp.stored && err == Last(api.delivered).resp.err
  {
    var v := Empty;
    v := Set(v, "user_id", FormatInt(userId));
    v := Set(v, "text", text);
    message, err := PostDirectMessagesImpl(api, v);
  }

  method DeleteDirectMessage(api: TwitterApi, id: Int64, includeEntities: bool)
    returns (message: Option<string>, err: Option<Error>)
    requires api.Valid()
    modifies api
    ensures api.Valid() && api.queue == []
    ensures api.Answered(DeleteDirectMessageRequest(api.baseUrl, id, includeEntities), old(api.channels))
    ensures api.delay == old(api.delay)
    ensures var t := old(api.Planned(DeleteDirectMessageRequest(api.baseUrl, id, includeEntities)));
      api.delivered == old(api.delivered) + t.log && api.hist.starts == old(api.hist.starts) + t.starts &&
      api.clock == t.clock
    ensures api.clock >= Last(api.hist.starts) + api.delay
    ensures message == Last(api.delivered).resp.stored && err == Last(api.delivered).resp.err
  {
    var resp := api.Submit(DeleteDirectMessageRequest(api.baseUrl, id, includeEntities));
    message, err := resp.stored, resp.err;
  }

  method IndicateTyping(api: TwitterApi, id: Int64) returns (err: Option<Error>)
    requires api.Valid()
    modifies api
    ensures api.Valid() && api.queue == []
    ensures api.Answered(IndicateTypingRequest(api.baseUrl, id), old(api.channels))
    ensures api.delay == old(api.delay)
    ensures var t := old(api.Planned(IndicateTypingRequest(api.baseUrl, id)));
      api.delivered == old(api.delivered) + t.log && api.hist.starts == old(api.hist.starts) + t.starts &&
      api.clock == t.clock
    ensures api.clock >= Last(api.hist.starts) + api.delay
    ensures err == Last(api.delivered).resp.err
  {
    var resp := api.Submit(IndicateTypingRequest(api.baseUrl, id));
    err := resp.err;
  }
}
