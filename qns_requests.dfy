/** The fifteen public operations of the QNS client, each as the call it
    makes to `sendRequest`: an HTTP method, the `$varArgs` array and the
    request path below the account prefix. */
module QnsRequests {
  import opened PhpArrays
  import opened PhpStrings
  import opened ArrayFilter

  datatype HttpMethod = GET | PUT | POST | DELETE

  /** The `$varArgs` array of `sendRequest`; `None` is a key the operation
      does not pass. A body `Some(v)` stands for the JSON text `json_encode(v)`. */
  datatype CallArgs = CallArgs(
    config: Option<PhpArray>,
    body: Option<Value>,
    headers: Option<PhpArray>,
    params: Option<PhpArray>)

  datatype Call = Call(verb: HttpMethod, args: CallArgs, requestPath: string)

  // Default argument values of the PHP signatures.
  const DEFAULT_CREATE_TOPIC_DELAY_IN_SECONDS := 0
  const DEFAULT_SET_TOPIC_DELAY_IN_SECONDS := 3600
  const DEFAULT_MAXIMUM_MESSAGE_SIZE_IN_BYTES := 262144
  const DEFAULT_MESSAGE_RETENTION_PERIOD_IN_SECONDS := 1209600
  const DEFAULT_SEND_DELAY_IN_SECONDS := 0
  const DEFAULT_PUSH_CONFIG_ENDPOINT := Str("")
  const DEFAULT_PUSH_CONFIG_VERSION := Str("v1alpha")
  const DEFAULT_RECEIVE_MESSAGE_WAIT_TIME_IN_SECONDS := 0
  const DEFAULT_VISIBILITY_TIMEOUT_IN_SECONDS := 30
  const DEFAULT_WAIT_IN_SECONDS := 0
  const DEFAULT_MAX_MESSAGES := 1
  const DEFAULT_PEEK := Null

  /** The header of the two set-attributes calls: overwrite unconditionally. */
  const IF_MATCH_ANY: PhpArray := [Entry("If-Match", Str("*"))]

  function TopicPath(topicName: Value): string {
    "/topic/" + ToPhpString(topicName)
  }

  function SubscriptionPath(subscriptionName: Value): string {
    "/subscription/" + ToPhpString(subscriptionName)
  }

  function ConfigOnly(config: PhpArray): CallArgs {
    CallArgs(Some(config), None, None, None)
  }

  /** An integer parameter as `array_filter` leaves it: present unless zero. */
  function IfNonZero(n: int): Option<Value> {
    if n == 0 then None else Some(Int(n))
  }

  /** The entries of a JSON object body, or none when there is no such body. */
  function BodyEntries(c: Call): PhpArray {
    if c.args.body.Some? && c.args.body.value.Assoc? then c.args.body.value.entries else []
  }

  // ---------------------------------------------------------------- topics

  function TopicAttributes(delayInSeconds: int, maximumMessageSizeInBytes: int,
                           messageRetentionPeriodInSeconds: int): PhpArray
  {
    [ Entry("delayInSeconds", Int(delayInSeconds)),
      Entry("maximumMessageSizeInBytes", Int(maximumMessageSizeInBytes)),
      Entry("messageRetentionPeriodInSeconds", Int(messageRetentionPeriodInSeconds)) ]
  }

  /** A topic-attributes body sends each of the three attributes exactly when
      it is non-zero, and nothing else. */
  predicate SendsNonZeroTopicAttributes(body: PhpArray, delayInSeconds: int,
                                        maximumMessageSizeInBytes: int,
                                        messageRetentionPeriodInSeconds: int)
  {
    && Lookup(body, "delayInSeconds") == IfNonZero(delayInSeconds)
    && Lookup(body, "maximumMessageSizeInBytes") == IfNonZero(maximumMessageSizeInBytes)
    && Lookup(body, "messageRetentionPeriodInSeconds") == IfNonZero(messageRetentionPeriodInSeconds)
    && forall k :: k in KeysOf(body) ==>
         k in ["delayInSeconds", "maximumMessageSizeInBytes", "messageRetentionPeriodInSeconds"]
  }

  lemma TopicAttributesFiltered(delayInSeconds: int, maximumMessageSizeInBytes: int,
                                messageRetentionPeriodInSeconds: int)
    ensures SendsNonZeroTopicAttributes(
              Filter(TopicAttributes(delayInSeconds, maximumMessageSizeInBytes, messageRetentionPeriodInSeconds)),
              delayInSeconds, maximumMessageSizeInBytes, messageRetentionPeriodInSeconds)
  {
    var a := TopicAttributes(delayInSeconds, maximumMessageSizeInBytes, messageRetentionPeriodInSeconds);
    var keys := KeysOf(a);
    assert keys == ["delayInSeconds", "maximumMessageSizeInBytes", "messageRetentionPeriodInSeconds"];
    FilterLookup(a, "delayInSeconds");
    FilterLookup(a, "maximumMessageSizeInBytes");
    FilterLookup(a, "messageRetentionPeriodInSeconds");
    forall k ensures k in KeysOf(Filter(a)) ==> k in keys {
      FilterKeys(a, k);
    }
  }

  /** createTopic: PUT /topic/{name} with the non-zero attributes as its body. */
  function CreateTopic(topicName: Value, delayInSeconds: int, maximumMessageSizeInBytes: int,
                       messageRetentionPeriodInSeconds: int, config: PhpArray): (c: Call)
    ensures c.verb == PUT && c.requestPath == TopicPath(topicName)
    ensures c.args.config == Some(config) && c.args.headers == None && c.args.params == None
    ensures c.args.body.Some? && c.args.body.value.Assoc?
    ensures SendsNonZeroTopicAttributes(BodyEntries(c), delayInSeconds, maximumMessageSizeInBytes,
                                        messageRetentionPeriodInSeconds)
  {
    var params := TopicAttributes(delayInSeconds, maximumMessageSizeInBytes, messageRetentionPeriodInSeconds);
    TopicAttributesFiltered(delayInSeconds, maximumMessageSizeInBytes, messageRetentionPeriodInSeconds);
    Call(PUT, CallArgs(Some(config), Some(Assoc(Filter(params))), None, None), TopicPath(topicName))
  }

  /** deleteTopic: DELETE /topic/{name}, nothing but the configuration. */
  function DeleteTopic(topicName: Value, config: PhpArray): (c: Call)
    ensures c.verb == DELETE && c.requestPath == TopicPath(topicName) && c.args == ConfigOnly(config)
  {
    Call(DELETE, ConfigOnly(config), TopicPath(topicName))
  }

  /** listTopic: GET /topic. */
  function ListTopic(config: PhpArray): (c: Call)
    ensures c.verb == GET && c.requestPath == "/topic" && c.args == ConfigOnly(config)
  {
    Call(GET, ConfigOnly(config), "/topic")
  }

  /** listTopicSubscriptions: GET /topic/{name}/subscription. */
  function ListTopicSubscriptions(topicName: Value, config: PhpArray): (c: Call)
    ensures c.verb == GET && c.requestPath == TopicPath(topicName) + "/subscription"
    ensures c.args == ConfigOnly(config)
  {
    Call(GET, ConfigOnly(config), TopicPath(topicName) + "/subscription")
  }

  /** getTopicAttributes: GET /topic/{name}. */
  function GetTopicAttributes(topicName: Value, config: PhpArray): (c: Call)
    ensures c.verb == GET && c.requestPath == TopicPath(topicName) && c.args == ConfigOnly(config)
  {
    Call(GET, ConfigOnly(config), TopicPath(topicName))
  }

  /** setTopicAttributes: PUT /topic/{name} with `If-Match: *` and the
      non-zero attributes as its body. */
  function SetTopicAttributes(topicName: Value, delayInSeconds: int, maximumMessageSizeInBytes: int,
                              messageRetentionPeriodInSeconds: int, config: PhpArray): (c: Call)
    ensures c.verb == PUT && c.requestPath == TopicPath(topicName)
    ensures c.args.config == Some(config) && c.args.headers == Some(IF_MATCH_ANY) && c.args.params == None
    ensures c.args.body.Some? && c.args.body.value.Assoc?
    ensures SendsNonZeroTopicAttributes(BodyEntries(c), delayInSeconds, maximumMessageSizeInBytes,
                                        messageRetentionPeriodInSeconds)
  {
    var params := TopicAttributes(delayInSeconds, maximumMessageSizeInBytes, messageRetentionPeriodInSeconds);
    TopicAttributesFiltered(delayInSeconds, maximumMessageSizeInBytes, messageRetentionPeriodInSeconds);
    Call(PUT, CallArgs(Some(config), Some(Assoc(Filter(params))), Some(IF_MATCH_ANY), None),
         TopicPath(topicName))
  }

  /** A message object of a send body: its `messageBody`, and a
      `delayInSeconds` exactly when `delay` is given. */
  predicate IsMessage(m: Value, messageBody: Value, delay: Option<int>) {
    && m.Assoc?
    && Lookup(m.entries, "messageBody") == Some(messageBody)
    && Lookup(m.entries, "delayInSeconds") == (if delay.Some? then Some(Int(delay.value)) else None)
    && |m.entries| == (if delay.Some? then 2 else 1)
  }

  /** sendTopic: POST /topic/{name}/message whose body holds a `messages`
      list of two objects, the first with the delay (unfiltered, so also a
      delay of 0), the second with the message body alone. */
  function SendTopic(topicName: Value, messageBody: Value, delayInSeconds: int, config: PhpArray): (c: Call)
    ensures c.verb == POST && c.requestPath == TopicPath(topicName) + "/message"
    ensures c.args.config == Some(config) && c.args.headers == None && c.args.params == None
    ensures c.args.body.Some? && c.args.body.value.Assoc?
    ensures KeysOf(BodyEntries(c)) == ["messages"]
    ensures var messages := Lookup(BodyEntries(c), "messages");
      && messages.Some? && messages.value.List? && |messages.value.items| == 2
      && IsMessage(messages.value.items[0], messageBody, Some(delayInSeconds))
      && IsMessage(messages.value.items[1], messageBody, None)
  {
    var messages := [
      Assoc([Entry("messageBody", messageBody), Entry("delayInSeconds", Int(delayInSeconds))]),
      Assoc([Entry("messageBody", messageBody)])
    ];
    Call(POST, CallArgs(Some(config), Some(Assoc([Entry("messages", List(messages))])), None, None),
         TopicPath(topicName) + "/message")
  }

  // --------------------------------------------------------- subscriptions

  function PushConfigParams(endpoint: Value, version: Value): PhpArray {
    [Entry("endpoint", endpoint), Entry("version", version)]
  }

  function SubscriptionParams(topicName: Value, pushConfigEndpoint: Value, pushConfigVersion: Value,
                              receiveMessageWaitTimeInSeconds: int, visibilityTimeoutInSeconds: int): PhpArray
  {
    [ Entry("receiveMessageWaitTimeInSeconds", Int(receiveMessageWaitTimeInSeconds)),
      Entry("topic", topicName),
      Entry("visibilityTimeoutInSeconds", Int(visibilityTimeoutInSeconds)),
      Entry("pushConfig", Assoc(Filter(PushConfigParams(pushConfigEndpoint, pushConfigVersion)))) ]
  }

  /** The body of createSubscription: each scalar attribute exactly when it is
      truthy, `pushConfig` as `PushConfigSent` says, and nothing else. */
  predicate SendsTruthySubscriptionAttributes(body: PhpArray, topicName: Value, pushConfigEndpoint: Value,
                                              pushConfigVersion: Value, receiveMessageWaitTimeInSeconds: int,
                                              visibilityTimeoutInSeconds: int)
  {
    && Lookup(body, "receiveMessageWaitTimeInSeconds") == IfNonZero(receiveMessageWaitTimeInSeconds)
    && Lookup(body, "topic") == KeptValue(topicName)
    && Lookup(body, "visibilityTimeoutInSeconds") == IfNonZero(visibilityTimeoutInSeconds)
    && PushConfigSent(Lookup(body, "pushConfig"), pushConfigEndpoint, pushConfigVersion)
    && forall k :: k in KeysOf(body) ==>
         k in ["receiveMessageWaitTimeInSeconds", "topic", "visibilityTimeoutInSeconds", "pushConfig"]
  }

  /** The `pushConfig` entry is left out exactly when both its endpoint and
      its version are falsy; when sent, it holds just the truthy ones. */
  predicate PushConfigSent(pushConfig: Option<Value>, endpoint: Value, version: Value) {
    && (pushConfig.None? <==> Falsy(endpoint) && Falsy(version))
    && (pushConfig.Some? ==>
          && pushConfig.value.Assoc?
          && Lookup(pushConfig.value.entries, "endpoint") == KeptValue(endpoint)
          && Lookup(pushConfig.value.entries, "version") == KeptValue(version))
  }

  lemma PushConfigFiltered(endpoint: Value, version: Value)
    ensures PushConfigSent(KeptValue(Assoc(Filter(PushConfigParams(endpoint, version)))), endpoint, version)
  {
    var a := PushConfigParams(endpoint, version);
    assert KeysOf(a) == ["endpoint", "version"];
    FilterLookup(a, "endpoint");
    FilterLookup(a, "version");
  }

  lemma SubscriptionParamsFiltered(topicName: Value, pushConfigEndpoint: Value, pushConfigVersion: Value,
                                   receiveMessageWaitTimeInSeconds: int, visibilityTimeoutInSeconds: int)
    ensures SendsTruthySubscriptionAttributes(
              Filter(SubscriptionParams(topicName, pushConfigEndpoint, pushConfigVersion,
                                        receiveMessageWaitTimeInSeconds, visibilityTimeoutInSeconds)),
              topicName, pushConfigEndpoint, pushConfigVersion,
              receiveMessageWaitTimeInSeconds, visibilityTimeoutInSeconds)
  {
    var a := SubscriptionParams(topicName, pushConfigEndpoint, pushConfigVersion,
                                receiveMessageWaitTimeInSeconds, visibilityTimeoutInSeconds);
    SubscriptionParamsKeys(a, topicName, pushConfigEndpoint, pushConfigVersion,
                           receiveMessageWaitTimeInSeconds, visibilityTimeoutInSeconds);
    LookupAt(a, 0);
    LookupAt(a, 1);
    LookupAt(a, 2);
    LookupAt(a, 3);
    FilterLookup(a, "receiveMessageWaitTimeInSeconds");
    FilterLookup(a, "topic");
    FilterLookup(a, "visibilityTimeoutInSeconds");
    FilterLookup(a, "pushConfig");
    PushConfigFiltered(pushConfigEndpoint, pushConfigVersion);
  }

  lemma SubscriptionParamsKeys(a: PhpArray, topicName: Value, pushConfigEndpoint: Value, pushConfigVersion: Value,
                               receiveMessageWaitTimeInSeconds: int, visibilityTimeoutInSeconds: int)
    requires a == SubscriptionParams(topicName, pushConfigEndpoint, pushConfigVersion,
                                     receiveMessageWaitTimeInSeconds, visibilityTimeoutInSeconds)
    ensures KeysOf(a) == ["receiveMessageWaitTimeInSeconds", "topic", "visibilityTimeoutInSeconds", "pushConfig"]
    ensures DistinctKeys(a)
    ensures forall k :: k in KeysOf(Filter(a)) ==>
              k in ["receiveMessageWaitTimeInSeconds", "topic", "visibilityTimeoutInSeconds", "pushConfig"]
  {
    forall k | k in KeysOf(Filter(a)) ensures k in KeysOf(a) {
      FilterKeys(a, k);
    }
  }

  /** createSubscription: PUT /subscription/{name} with the truthy
      attributes, the topic and the filtered push configuration. */
  function CreateSubscription(topicName: Value, subscriptionName: Value, pushConfigEndpoint: Value,
                              pushConfigVersion: Value, receiveMessageWaitTimeInSeconds: int,
                              visibilityTimeoutInSeconds: int, config: PhpArray): (c: Call)
    ensures c.verb == PUT && c.requestPath == SubscriptionPath(subscriptionName)
    ensures c.args.config == Some(config) && c.args.headers == None && c.args.params == None
    ensures c.args.body.Some? && c.args.body.value.Assoc?
    ensures SendsTruthySubscriptionAttributes(BodyEntries(c), topicName, pushConfigEndpoint, pushConfigVersion,
                                              receiveMessageWaitTimeInSeconds, visibilityTimeoutInSeconds)
  {
    var params := SubscriptionParams(topicName, pushConfigEndpoint, pushConfigVersion,
                                     receiveMessageWaitTimeInSeconds, visibilityTimeoutInSeconds);
    SubscriptionParamsFiltered(topicName, pushConfigEndpoint, pushConfigVersion,
                               receiveMessageWaitTimeInSeconds, visibilityTimeoutInSeconds);
    Call(PUT, CallArgs(Some(config), Some(Assoc(Filter(params))), None, None), SubscriptionPath(subscriptionName))
  }

  /** deleteSubscription: DELETE /subscription/{name}. */
  function DeleteSubscription(subscriptionName: Value, config: PhpArray): (c: Call)
    ensures c.verb == DELETE && c.requestPath == SubscriptionPath(subscriptionName)
    ensures c.args == ConfigOnly(config)
  {
    Call(DELETE, ConfigOnly(config), SubscriptionPath(subscriptionName))
  }

  /** listSubscription: GET /subscription. */
  function ListSubscription(config: PhpArray): (c: Call)
    ensures c.verb == GET && c.requestPath == "/subscription" && c.args == ConfigOnly(config)
  {
    Call(GET, ConfigOnly(config), "/subscription")
  }

  /** getSubscriptionAttributes: GET /subscription/{name}. */
  function GetSubscriptionAttributes(subscriptionName: Value, config: PhpArray): (c: Call)
    ensures c.verb == GET && c.requestPath == SubscriptionPath(subscriptionName)
    ensures c.args == ConfigOnly(config)
  {
    Call(GET, ConfigOnly(config), SubscriptionPath(subscriptionName))
  }

  /** setSubscriptionAttributes: PUT /subscription/{name} with `If-Match: *`;
      its two attributes are NOT filtered, so both are always sent, zero or not. */
  function SetSubscriptionAttributes(subscriptionName: Value, receiveMessageWaitTimeInSeconds: int,
                                     visibilityTimeoutInSeconds: int, config: PhpArray): (c: Call)
    ensures c.verb == PUT && c.requestPath == SubscriptionPath(subscriptionName)
    ensures c.args.config == Some(config) && c.args.headers == Some(IF_MATCH_ANY) && c.args.params == None
    ensures c.args.body.Some? && c.args.body.value.Assoc?
    ensures KeysOf(BodyEntries(c)) == ["receiveMessageWaitTimeInSeconds", "visibilityTimeoutInSeconds"]
    ensures Lookup(BodyEntries(c), "receiveMessageWaitTimeInSeconds") == Some(Int(receiveMessageWaitTimeInSeconds))
    ensures Lookup(BodyEntries(c), "visibilityTimeoutInSeconds") == Some(Int(visibilityTimeoutInSeconds))
  {
    var params := [
      Entry("receiveMessageWaitTimeInSeconds", Int(receiveMessageWaitTimeInSeconds)),
      Entry("visibilityTimeoutInSeconds", Int(visibilityTimeoutInSeconds))
    ];
    Call(PUT, CallArgs(Some(config), Some(Assoc(params)), Some(IF_MATCH_ANY), None),
         SubscriptionPath(subscriptionName))
  }

  /** receiveSubscriptionMessage: GET /subscription/{name}/message with no
      body; its truthy arguments travel as query parameters. */
  function ReceiveSubscriptionMessage(subscriptionName: Value, waitInSeconds: int, maxMessages: int,
                                      peek: Value, config: PhpArray): (c: Call)
    ensures c.verb == GET && c.requestPath == SubscriptionPath(subscriptionName) + "/message"
    ensures c.args.config == Some(config) && c.args.body == None && c.args.headers == None
    ensures c.args.params.Some?
    ensures var p := c.args.params.value;
      && Lookup(p, "waitInSeconds") == IfNonZero(waitInSeconds)
      && Lookup(p, "maxMessages") == IfNonZero(maxMessages)
      && Lookup(p, "peek") == KeptValue(peek)
      && forall k :: k in KeysOf(p) ==> k in ["waitInSeconds", "maxMessages", "peek"]
  {
    var params := [Entry("waitInSeconds", Int(waitInSeconds)), Entry("maxMessages", Int(maxMessages)),
                   Entry("peek", peek)];
    assert KeysOf(params) == ["waitInSeconds", "maxMessages", "peek"];
    FilterLookup(params, "waitInSeconds");
    FilterLookup(params, "maxMessages");
    FilterLookup(params, "peek");
    assert forall k :: k in KeysOf(Filter(params)) ==> k in KeysOf(params) by {
      forall k { FilterKeys(params, k); }
    }
    Call(GET, CallArgs(Some(config), None, None, Some(Filter(params))),
         SubscriptionPath(subscriptionName) + "/message")
  }

  /** deleteSubscriptionMessage: DELETE /subscription/{name}/message with the
      receipt handle as the only query parameter, unfiltered. */
  function DeleteSubscriptionMessage(subscriptionName: Value, receiptHandle: Value, config: PhpArray): (c: Call)
    ensures c.verb == DELETE && c.requestPath == SubscriptionPath(subscriptionName) + "/message"
    ensures c.args.config == Some(config) && c.args.body == None && c.args.headers == None
    ensures c.args.params.Some? && KeysOf(c.args.params.value) == ["receiptHandle"]
    ensures Lookup(c.args.params.value, "receiptHandle") == Some(receiptHandle)
  {
    Call(DELETE, CallArgs(Some(config), None, None, Some([Entry("receiptHandle", receiptHandle)])),
         SubscriptionPath(subscriptionName) + "/message")
  }

  /** changeSubscriptionVisibility: PUT /subscription/{name}/message with the
      truthy ones of the receipt handle and the timeout as query parameters. */
  function ChangeSubscriptionVisibility(subscriptionName: Value, receiptHandle: Value,
                                        visibilityTimeoutInSeconds: Value, config: PhpArray): (c: Call)
    ensures c.verb == PUT && c.requestPath == SubscriptionPath(subscriptionName) + "/message"
    ensures c.args.config == Some(config) && c.args.body == None && c.args.headers == None
    ensures c.args.params.Some?
    ensures var p := c.args.params.value;
      && Lookup(p, "receiptHandle") == KeptValue(receiptHandle)
      && Lookup(p, "visibilityTimeoutInSeconds") == KeptValue(visibilityTimeoutInSeconds)
      && forall k :: k in KeysOf(p) ==> k in ["receiptHandle", "visibilityTimeoutInSeconds"]
  {
    var params := [Entry("receiptHandle", receiptHandle),
                   Entry("visibilityTimeoutInSeconds", visibilityTimeoutInSeconds)];
    assert KeysOf(params) == ["receiptHandle", "visibilityTimeoutInSeconds"];
    FilterLookup(params, "receiptHandle");
    FilterLookup(params, "visibilityTimeoutInSeconds");
    assert forall k :: k in KeysOf(Filter(params)) ==> k in KeysOf(params) by {
      forall k { FilterKeys(params, k); }
    }
    Call(PUT, CallArgs(Some(config), None, None, Some(Filter(params))),
         SubscriptionPath(subscriptionName) + "/message")
  }

  // ------------------------------------------------- calls with defaults

  /** With a non-zero size and retention, the topic attributes sent are
      those two, preceded by the delay exactly when it is non-zero. */
  lemma FilterTopicAttributes(delayInSeconds: int, maximumMessageSizeInBytes: int,
                              messageRetentionPeriodInSeconds: int)
    requires maximumMessageSizeInBytes != 0 && messageRetentionPeriodInSeconds != 0
    ensures var sent := Filter(TopicAttributes(delayInSeconds, maximumMessageSizeInBytes,
                                               messageRetentionPeriodInSeconds));
      var rest := [Entry("maximumMessageSizeInBytes", Int(maximumMessageSizeInBytes)),
                   Entry("messageRetentionPeriodInSeconds", Int(messageRetentionPeriodInSeconds))];
      && (delayInSeconds == 0 ==> sent == rest)
      && (delayInSeconds != 0 ==> sent == [Entry("delayInSeconds", Int(delayInSeconds))] + rest)
  {
    var a := TopicAttributes(delayInSeconds, maximumMessageSizeInBytes, messageRetentionPeriodInSeconds);
    assert a[0..] == a && a[3..] == [];
    FilterStep(a, 2);
    FilterStep(a, 1);
    FilterStep(a, 0);
  }

  /** createTopic with its default arguments: a PUT to /topic/{name} whose
      body holds the maximum size and the retention period, the zero delay
      being filtered out. */
  lemma CreateTopicDefaults(topicName: Value)
    ensures var c := CreateTopic(topicName, DEFAULT_CREATE_TOPIC_DELAY_IN_SECONDS,
                                 DEFAULT_MAXIMUM_MESSAGE_SIZE_IN_BYTES,
                                 DEFAULT_MESSAGE_RETENTION_PERIOD_IN_SECONDS, []);
      && c.verb == PUT
      && c.requestPath == TopicPath(topicName)
      && c.args.body == Some(Assoc([Entry("maximumMessageSizeInBytes", Int(262144)),
                                    Entry("messageRetentionPeriodInSeconds", Int(1209600))]))
  {
    FilterTopicAttributes(0, 262144, 1209600);
  }

  /** setTopicAttributes with its default arguments sends all three
      attributes, the delay being 3600 seconds. */
  lemma SetTopicAttributesDefaults(topicName: Value)
    ensures var c := SetTopicAttributes(topicName, DEFAULT_SET_TOPIC_DELAY_IN_SECONDS,
                                        DEFAULT_MAXIMUM_MESSAGE_SIZE_IN_BYTES,
                                        DEFAULT_MESSAGE_RETENTION_PERIOD_IN_SECONDS, []);
      && c.verb == PUT
      && c.args.headers == Some(IF_MATCH_ANY)
      && c.args.body == Some(Assoc([Entry("delayInSeconds", Int(3600)),
                                    Entry("maximumMessageSizeInBytes", Int(262144)),
                                    Entry("messageRetentionPeriodInSeconds", Int(1209600))]))
  {
    FilterTopicAttributes(3600, 262144, 1209600);
    var rest := [Entry("maximumMessageSizeInBytes", Int(262144)),
                 Entry("messageRetentionPeriodInSeconds", Int(1209600))];
    assert [Entry("delayInSeconds", Int(3600))] + rest
        == [Entry("delayInSeconds", Int(3600)), rest[0], rest[1]];
  }

  lemma FilterDefaultPushConfig()
    ensures Filter(PushConfigParams(Str(""), Str("v1alpha"))) == [Entry("version", Str("v1alpha"))]
  {
    var p := PushConfigParams(Str(""), Str("v1alpha"));
    assert p[0..] == p && p[2..] == [];
    FilterStep(p, 1);
    FilterStep(p, 0);
  }

  lemma FilterDefaultSubscriptionParams(topicName: string)
    requires topicName != "" && topicName != "0"
    ensures Filter(SubscriptionParams(Str(topicName), Str(""), Str("v1alpha"), 0, 30))
         == [Entry("topic", Str(topicName)), Entry("visibilityTimeoutInSeconds", Int(30)),
             Entry("pushConfig", Assoc([Entry("version", Str("v1alpha"))]))]
  {
    FilterDefaultPushConfig();
    var a := SubscriptionParams(Str(topicName), Str(""), Str("v1alpha"), 0, 30);
    assert a[0..] == a && a[4..] == [];
    FilterStep(a, 3);
    FilterStep(a, 2);
    FilterStep(a, 1);
    FilterStep(a, 0);
  }

  /** createSubscription with its default arguments: no wait time, the
      topic, a 30-second visibility timeout and a push configuration holding
      only the version, the empty endpoint being dropped. */
  lemma CreateSubscriptionDefaults(topicName: string, subscriptionName: Value)
    requires topicName != "" && topicName != "0"
    ensures var c := CreateSubscription(Str(topicName), subscriptionName, DEFAULT_PUSH_CONFIG_ENDPOINT,
                                        DEFAULT_PUSH_CONFIG_VERSION,
                                        DEFAULT_RECEIVE_MESSAGE_WAIT_TIME_IN_SECONDS,
                                        DEFAULT_VISIBILITY_TIMEOUT_IN_SECONDS, []);
      && c.verb == PUT
      && c.requestPath == SubscriptionPath(subscriptionName)
      && c.args.body == Some(Assoc([Entry("topic", Str(topicName)),
                                    Entry("visibilityTimeoutInSeconds", Int(30)),
                                    Entry("pushConfig", Assoc([Entry("version", Str("v1alpha"))]))]))
  {
    FilterDefaultSubscriptionParams(topicName);
  }

  lemma FilterDefaultReceiveParams()
    ensures Filter([Entry("waitInSeconds", Int(0)), Entry("maxMessages", Int(1)), Entry("peek", Null)])
         == [Entry("maxMessages", Int(1))]
  {
    var a := [Entry("waitInSeconds", Int(0)), Entry("maxMessages", Int(1)), Entry("peek", Null)];
    assert a[0..] == a && a[3..] == [];
    FilterStep(a, 2);
    FilterStep(a, 1);
    FilterStep(a, 0);
  }

  /** receiveSubscriptionMessage with its default arguments asks for one
      message by a single query parameter and sends no body. */
  lemma ReceiveSubscriptionMessageDefaults(subscriptionName: Value)
    ensures var c := ReceiveSubscriptionMessage(subscriptionName, DEFAULT_WAIT_IN_SECONDS, DEFAULT_MAX_MESSAGES,
                                                DEFAULT_PEEK, []);
      && c.verb == GET
      && c.requestPath == SubscriptionPath(subscriptionName) + "/message"
      && c.args.body == None
      && c.args.params == Some([Entry("maxMessages", Int(1))])
  {
    FilterDefaultReceiveParams();
  }
}
