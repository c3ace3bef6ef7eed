/** The QNS client object: its account prefix, fixed at construction, and
    `sendRequest` up to the point where the finished request is handed to
    the HTTP transport. */
module Qns {
  import opened PhpArrays
  import opened PhpStrings
  import opened ArrayFilter
  import opened QnsRequests

  /** The initial value of the client's `prefix` field. */
  const PREFIX_START := "/v1/"

  /** The Content-Type header name and the JSON content type of the SDK's
      HTTP constants. */
  const CONTENT_TYPE := "Content-Type"
  const JSON_CONTENT_TYPE := "application/json; charset=utf-8"

  /** What `sendRequest` hands to the transport: the merged configuration,
      the HTTP method, the full path, the body (`None` is PHP null), the
      headers and the query parameters. */
  datatype Request = Request(
    config: PhpArray,
    verb: HttpMethod,
    path: string,
    body: Option<Value>,
    headers: PhpArray,
    params: PhpArray)

  /** `$config['account']`; a missing key reads as null. */
  function AccountOf(config: PhpArray): Value {
    Lookup(config, "account").GetOr(Null)
  }

  /** The configuration of one call: the client's own when the per-call one
      is empty, else `array_merge(array(), $base, $override)`. */
  function MergedConfig(base: PhpArray, override: PhpArray): PhpArray {
    if override == [] then base else ArrayMerge(ArrayMerge([], base), override)
  }

  /** The headers with the JSON Content-Type added unless one is set. */
  function WithDefaultContentType(headers: PhpArray): (r: PhpArray)
    ensures IsSet(r, CONTENT_TYPE)
    ensures IsSet(headers, CONTENT_TYPE) ==> r == headers
    ensures !IsSet(headers, CONTENT_TYPE) ==> Lookup(r, CONTENT_TYPE) == Some(Str(JSON_CONTENT_TYPE))
    ensures forall k :: k != CONTENT_TYPE ==> Lookup(r, k) == Lookup(headers, k)
  {
    if IsSet(headers, CONTENT_TYPE) then headers
    else
      var r := Put(headers, CONTENT_TYPE, Str(JSON_CONTENT_TYPE));
      assert forall k :: Lookup(r, k) == if k == CONTENT_TYPE then Some(Str(JSON_CONTENT_TYPE)) else Lookup(headers, k) by {
        forall k ensures Lookup(r, k) == if k == CONTENT_TYPE then Some(Str(JSON_CONTENT_TYPE)) else Lookup(headers, k) {
          PutLookup(headers, CONTENT_TYPE, Str(JSON_CONTENT_TYPE), k);
        }
      }
      r
  }

  /** The request `sendRequest` assembles for a client with the given prefix
      and configuration: the keys of `$varArgs` the caller did not pass take
      their defaults (empty configuration, null body, no headers, no
      parameters). */
  function Prepare(prefix: string, base: PhpArray, c: Call): Request {
    Request(
      MergedConfig(base, c.args.config.GetOr([])),
      c.verb,
      prefix + c.requestPath,
      c.args.body,
      WithDefaultContentType(c.args.headers.GetOr([])),
      c.args.params.GetOr([]))
  }

  class QnsClient {
    /** The client configuration, kept by the base client. */
    const config: PhpArray
    /** `/v1/` followed by the account, the start of every request path. */
    const prefix: string

    /** The prefix is `/v1/` followed by the account of the configuration. */
    predicate Valid() {
      prefix == PREFIX_START + ToPhpString(AccountOf(config))
    }

    constructor (config: PhpArray)
      ensures this.config == config
      ensures prefix == PREFIX_START + ToPhpString(AccountOf(config))
      ensures Valid()
    {
      this.config := config;
      var p := PREFIX_START;
      p := p + ToPhpString(AccountOf(config));
      prefix := p;
    }

    /** Assembles the request of one operation: defaults for the arguments
        not passed, the merged configuration, the default Content-Type and
        the full path. */
    method SendRequest(verb: HttpMethod, varArgs: CallArgs, requestPath: string) returns (r: Request)
      requires Valid()
      ensures r == Prepare(prefix, config, Call(verb, varArgs, requestPath))
      ensures r.path == PREFIX_START + ToPhpString(AccountOf(config)) + requestPath
    {
      var argsConfig := varArgs.config.GetOr([]);
      var body := varArgs.body;
      var headers := varArgs.headers.GetOr([]);
      var params := varArgs.params.GetOr([]);
      var merged;
      if argsConfig == [] {
        merged := config;
      } else {
        merged := ArrayMerge(ArrayMerge([], config), argsConfig);
      }
      if !IsSet(headers, CONTENT_TYPE) {
        headers := Put(headers, CONTENT_TYPE, Str(JSON_CONTENT_TYPE));
      }
      var path := prefix + requestPath;
      r := Request(merged, verb, path, body, headers, params);
    }
  }

  // ------------------------------------------------------ configuration merge

  /** A per-call configuration key wins over the client's; every other key
      keeps the client's value. An empty per-call configuration leaves the
      client's unchanged. */
  lemma ConfigOverrideWins(base: PhpArray, override: PhpArray, k: string)
    requires DistinctKeys(base) && DistinctKeys(override)
    ensures override == [] ==> MergedConfig(base, override) == base
    ensures Lookup(MergedConfig(base, override), k)
            == if k in KeysOf(override) then Lookup(override, k) else Lookup(base, k)
  {
    if override != [] {
      ArrayMergeIntoEmpty(base);
      ArrayMergeLookup(base, override, k);
    }
  }

  /** The merged configuration lists the client's keys first, in their order,
      and holds exactly the keys of the two. */
  lemma ConfigMergeKeys(base: PhpArray, override: PhpArray, k: string)
    requires DistinctKeys(base)
    ensures |base| <= |MergedConfig(base, override)|
    ensures KeysOf(MergedConfig(base, override))[..|base|] == KeysOf(base)
    ensures k in KeysOf(MergedConfig(base, override)) <==> k in KeysOf(base) || k in KeysOf(override)
  {
    if override != [] {
      ArrayMergeIntoEmpty(base);
      ArrayMergeKeyOrder(base, override);
      ArrayMergeKeySet(base, override, k);
    }
  }

  // ---------------------------------------------------------- prepared requests

  /** Every prepared request carries a Content-Type; every other header the
      operation passed, such as `If-Match`, reaches the transport unchanged,
      and so do the body and the parameters. */
  lemma PrepareKeepsCallerArguments(prefix: string, base: PhpArray, c: Call, k: string)
    ensures var r := Prepare(prefix, base, c);
      && IsSet(r.headers, CONTENT_TYPE)
      && (k != CONTENT_TYPE ==> Lookup(r.headers, k) == Lookup(c.args.headers.GetOr([]), k))
      && r.body == c.args.body
      && (c.args.params.Some? ==> r.params == c.args.params.value)
      && (c.args.params.None? ==> r.params == [])
  {
  }

  /** A caller's Content-Type that is set is kept as it is; one that is
      missing or null is replaced by JSON. */
  lemma ContentTypeOnlyWhenMissing(prefix: string, base: PhpArray, c: Call)
    ensures var given := c.args.headers.GetOr([]);
      var r := Prepare(prefix, base, c);
      && (IsSet(given, CONTENT_TYPE) ==> r.headers == given)
      && (!IsSet(given, CONTENT_TYPE) ==> Lookup(r.headers, CONTENT_TYPE) == Some(Str(JSON_CONTENT_TYPE)))
  {
  }

  /** The two set-attributes calls reach the transport with exactly the
      headers `If-Match: *` and the JSON Content-Type. */
  lemma SetAttributesHeaders(prefix: string, base: PhpArray, topicName: Value, subscriptionName: Value,
                             delayInSeconds: int, maximumMessageSizeInBytes: int,
                             messageRetentionPeriodInSeconds: int, receiveMessageWaitTimeInSeconds: int,
                             visibilityTimeoutInSeconds: int, config: PhpArray)
    ensures var expected := [Entry("If-Match", Str("*")), Entry(CONTENT_TYPE, Str(JSON_CONTENT_TYPE))];
      && Prepare(prefix, base, SetTopicAttributes(topicName, delayInSeconds, maximumMessageSizeInBytes,
                                                  messageRetentionPeriodInSeconds, config)).headers == expected
      && Prepare(prefix, base, SetSubscriptionAttributes(subscriptionName, receiveMessageWaitTimeInSeconds,
                                                         visibilityTimeoutInSeconds, config)).headers == expected
  {
    PutNewKeyAppends(IF_MATCH_ANY, CONTENT_TYPE, Str(JSON_CONTENT_TYPE));
  }

  /** The seven operations that pass only a configuration send no body, no
      parameters and only the JSON Content-Type header, to the path of their
      resource under the account prefix. */
  lemma ConfigOnlyRequests(prefix: string, base: PhpArray, topicName: Value, subscriptionName: Value,
                           config: PhpArray)
    ensures var onlyJson := [Entry(CONTENT_TYPE, Str(JSON_CONTENT_TYPE))];
      forall c :: c in [DeleteTopic(topicName, config), ListTopic(config),
                        ListTopicSubscriptions(topicName, config), GetTopicAttributes(topicName, config),
                        DeleteSubscription(subscriptionName, config), ListSubscription(config),
                        GetSubscriptionAttributes(subscriptionName, config)] ==>
        var r := Prepare(prefix, base, c);
        && r.body == None && r.params == [] && r.headers == onlyJson
        && r.config == MergedConfig(base, config)
        && r.path == prefix + c.requestPath
  {
  }

  // ----------------------------------------------------- calls with defaults

  /** createTopic with its default arguments and no options reaches the
      transport as a PUT below the account prefix, with the client's own
      configuration, only the JSON Content-Type header and a body without
      the zero delay. */
  lemma CreateTopicDefaultsRequest(prefix: string, base: PhpArray, topicName: Value)
    ensures var r := Prepare(prefix, base, CreateTopic(topicName, DEFAULT_CREATE_TOPIC_DELAY_IN_SECONDS,
                                                        DEFAULT_MAXIMUM_MESSAGE_SIZE_IN_BYTES,
                                                        DEFAULT_MESSAGE_RETENTION_PERIOD_IN_SECONDS, []));
      && r.verb == PUT
      && r.path == prefix + TopicPath(topicName)
      && r.config == base
      && r.headers == [Entry(CONTENT_TYPE, Str(JSON_CONTENT_TYPE))]
      && r.params == []
      && r.body == Some(Assoc([Entry("maximumMessageSizeInBytes", Int(262144)),
                               Entry("messageRetentionPeriodInSeconds", Int(1209600))]))
  {
    CreateTopicDefaults(topicName);
  }
}
