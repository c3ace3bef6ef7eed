# QNS client request layer

This project models the request-building half of the Baidu BCE PHP SDK's QNS
(queue notification service) client, `QnsClient`. The client:

- builds its account prefix `/v1/{account}` at construction;
- turns each of its fifteen public operations (`createTopic` …
  `changeSubscriptionVisibility`) into a call of `sendRequest` with an HTTP
  method, a `varArgs` array (config, body, headers, query parameters) and a
  request path;
- completes that call in `sendRequest` before handing it to the HTTP
  transport. It fills in the missing arguments, merges the per-call
  configuration over the client's own, adds a JSON `Content-Type` header
  unless one is set, and puts the account prefix in front of the path.

The PHP runtime behaviour the client depends on is modelled explicitly:

- `php_arrays.dfy`: ordered string-keyed arrays. It covers `$a[$k] = $v`
  (`Put`), `isset` (`IsSet`, false for a null value), string-keyed
  `array_merge` (`ArrayMerge`) and PHP truthiness (`Falsy`).
- `array_filter.dfy`: `array_filter` without a callback. It drops falsy values
  so that the service's own defaults apply instead of explicit zeros.
- `php_strings.dfy`: the string conversion used by `.` when names and the
  account are joined into paths.
- `qns_requests.dfy`: one function per public operation. Each returns the
  `Call` the operation makes to `sendRequest`. A `CallArgs` field that is
  `None` stands for a key of `$varArgs` the operation does not pass. A body
  `Some(v)` stands for `json_encode(v)`.
- `qns_client.dfy`: the `QnsClient` class, with its constructor and the
  `SendRequest` method. The method is proved against the specification
  function `Prepare`, and lemmas relate the prepared requests to the
  operations.

## Model

| member | source | states |
|---|---|---|
| PhpArrays.Lookup | src/BaiduBce/Services/Qns/QnsClient.php:441 | reading `$a[$k]` finds a value exactly when the key is present, and the value found is stored under that key |
| PhpArrays.PutLookup | src/BaiduBce/Services/Qns/QnsClient.php:442 | after `$a[$k] = $v` the key holds `v` and every other key holds what it held before |
| PhpArrays.PutNewKeyAppends | src/BaiduBce/Services/Qns/QnsClient.php:442 | assigning a key the array does not hold appends exactly that entry at the end |
| PhpArrays.PutKeys | src/BaiduBce/Services/Qns/QnsClient.php:442 | assignment keeps the key order; a new key is appended last |
| PhpArrays.PutKeepsDistinct | src/BaiduBce/Services/Qns/QnsClient.php:442 | assignment never makes a key appear twice |
| PhpArrays.ArrayMergeLookup | src/BaiduBce/Services/Qns/QnsClient.php:435-439 | after `array_merge($a, $b)` a key of `b` holds `b`'s value; every other key keeps `a`'s |
| PhpArrays.ArrayMergeKeyOrder | src/BaiduBce/Services/Qns/QnsClient.php:435-439 | `array_merge` keeps the keys of its first array first, in their order |
| PhpArrays.ArrayMergeKeySet | src/BaiduBce/Services/Qns/QnsClient.php:435-439 | `array_merge` holds exactly the keys of its two arrays |
| PhpArrays.ArrayMergeIntoEmpty | src/BaiduBce/Services/Qns/QnsClient.php:435-437 | merging an array into `array()` gives the same array back |
| PhpArrays.ArrayMergeKeepsDistinct | src/BaiduBce/Services/Qns/QnsClient.php:435-439 | `array_merge` never makes a key appear twice |
| PhpStrings.NatToDecimal | src/BaiduBce/Services/Qns/QnsClient.php:46 | an integer account converts to a non-empty string of digits with no leading zero |
| PhpStrings.DecimalRoundTrip | src/BaiduBce/Services/Qns/QnsClient.php:46 | reading the decimal text of a natural number gives the number back |
| PhpStrings.IntToStringRoundTrip | src/BaiduBce/Services/Qns/QnsClient.php:46 | the text of an integer starts with '-' exactly when the integer is negative; its digits give back the magnitude |
| ArrayFilter.Filter | src/BaiduBce/Services/Qns/QnsClient.php:67 | `array_filter` never grows the array |
| ArrayFilter.FilterMembers | src/BaiduBce/Services/Qns/QnsClient.php:67 | an entry survives `array_filter` exactly when it is in the input with a truthy value |
| ArrayFilter.FilterNoFalsy | src/BaiduBce/Services/Qns/QnsClient.php:171 | no falsy value survives the filter |
| ArrayFilter.FilterKeepsOrder | src/BaiduBce/Services/Qns/QnsClient.php:235 | the surviving entries keep their relative order |
| ArrayFilter.FilterLookup | src/BaiduBce/Services/Qns/QnsClient.php:242 | a key keeps its value after the filter exactly when the value is truthy; otherwise the key is gone |
| ArrayFilter.FilterKeys | src/BaiduBce/Services/Qns/QnsClient.php:355 | the filter introduces no key |
| ArrayFilter.FilterIdempotent | src/BaiduBce/Services/Qns/QnsClient.php:404 | filtering twice is the same as filtering once |
| ArrayFilter.FilterIdentity | src/BaiduBce/Services/Qns/QnsClient.php:67 | the filter changes an array exactly when it holds a falsy value |
| QnsRequests.TopicAttributesFiltered | src/BaiduBce/Services/Qns/QnsClient.php:62-67 | the filtered topic attributes hold exactly the non-zero ones, each with its value |
| QnsRequests.CreateTopic | src/BaiduBce/Services/Qns/QnsClient.php:59-76 | PUT to `/topic/{name}` with the per-call config, no headers or params, and a body holding exactly the non-zero attributes |
| QnsRequests.DeleteTopic | src/BaiduBce/Services/Qns/QnsClient.php:85-95 | DELETE to `/topic/{name}` passing only the config |
| QnsRequests.ListTopic | src/BaiduBce/Services/Qns/QnsClient.php:103-113 | GET to `/topic` passing only the config |
| QnsRequests.ListTopicSubscriptions | src/BaiduBce/Services/Qns/QnsClient.php:122-132 | GET to `/topic/{name}/subscription` passing only the config |
| QnsRequests.GetTopicAttributes | src/BaiduBce/Services/Qns/QnsClient.php:141-151 | GET to `/topic/{name}` passing only the config |
| QnsRequests.SetTopicAttributes | src/BaiduBce/Services/Qns/QnsClient.php:163-181 | PUT to `/topic/{name}` with `If-Match: *` and a body holding exactly the non-zero attributes |
| QnsRequests.SendTopic | src/BaiduBce/Services/Qns/QnsClient.php:192-214 | POST to `/topic/{name}/message`; the body's only key `messages` holds two messages, the first with the unfiltered delay, the second without a delay |
| QnsRequests.PushConfigFiltered | src/BaiduBce/Services/Qns/QnsClient.php:231-235 | the filtered push configuration keeps the endpoint and the version exactly when each is truthy |
| QnsRequests.SubscriptionParamsFiltered | src/BaiduBce/Services/Qns/QnsClient.php:236-242 | the filtered subscription body keeps each truthy attribute, the topic and a non-empty push configuration, and nothing else |
| QnsRequests.SubscriptionParamsKeys | src/BaiduBce/Services/Qns/QnsClient.php:236-241 | the subscription body is built with the keys wait time, topic, visibility timeout, push configuration, in that order |
| QnsRequests.CreateSubscription | src/BaiduBce/Services/Qns/QnsClient.php:228-251 | PUT to `/subscription/{name}` whose body holds exactly the truthy subscription attributes |
| QnsRequests.DeleteSubscription | src/BaiduBce/Services/Qns/QnsClient.php:260-270 | DELETE to `/subscription/{name}` passing only the config |
| QnsRequests.ListSubscription | src/BaiduBce/Services/Qns/QnsClient.php:278-288 | GET to `/subscription` passing only the config |
| QnsRequests.GetSubscriptionAttributes | src/BaiduBce/Services/Qns/QnsClient.php:297-307 | GET to `/subscription/{name}` passing only the config |
| QnsRequests.SetSubscriptionAttributes | src/BaiduBce/Services/Qns/QnsClient.php:318-334 | PUT to `/subscription/{name}` with `If-Match: *`; both attributes are always in the body, even when zero |
| QnsRequests.ReceiveSubscriptionMessage | src/BaiduBce/Services/Qns/QnsClient.php:348-365 | GET to `/subscription/{name}/message` with no body; the query holds exactly the truthy wait, count and peek values |
| QnsRequests.DeleteSubscriptionMessage | src/BaiduBce/Services/Qns/QnsClient.php:375-386 | DELETE to `/subscription/{name}/message` whose query is exactly the receipt handle, unfiltered |
| QnsRequests.ChangeSubscriptionVisibility | src/BaiduBce/Services/Qns/QnsClient.php:397-413 | PUT to `/subscription/{name}/message` with no body; the query holds exactly the truthy receipt handle and timeout |
| QnsRequests.FilterTopicAttributes | src/BaiduBce/Services/Qns/QnsClient.php:62-67 | a zero delay is dropped from the topic attributes and a non-zero delay is kept first |
| QnsRequests.CreateTopicDefaults | src/BaiduBce/Services/Qns/QnsClient.php:59-75 | with its defaults, createTopic sends 262144 and 1209600 and no delay |
| QnsRequests.SetTopicAttributesDefaults | src/BaiduBce/Services/Qns/QnsClient.php:163-171 | with its defaults, setTopicAttributes sends the delay 3600, 262144 and 1209600 |
| QnsRequests.FilterDefaultPushConfig | src/BaiduBce/Services/Qns/QnsClient.php:228-235 | the default push configuration filters to the version `v1alpha` alone |
| QnsRequests.FilterDefaultSubscriptionParams | src/BaiduBce/Services/Qns/QnsClient.php:228-242 | with its defaults, the subscription body is the topic, the timeout 30 and the version-only push configuration |
| QnsRequests.CreateSubscriptionDefaults | src/BaiduBce/Services/Qns/QnsClient.php:228-251 | createSubscription with its defaults sends exactly that body |
| QnsRequests.FilterDefaultReceiveParams | src/BaiduBce/Services/Qns/QnsClient.php:348-355 | the default receive query filters to `maxMessages` = 1 alone |
| QnsRequests.ReceiveSubscriptionMessageDefaults | src/BaiduBce/Services/Qns/QnsClient.php:348-365 | receiveSubscriptionMessage with its defaults sends only `maxMessages` = 1 |
| Qns.WithDefaultContentType | src/BaiduBce/Services/Qns/QnsClient.php:441-443 | the headers always carry a Content-Type; a set one is kept, a missing or null one becomes JSON, other headers are unchanged |
| Qns.QnsClient.constructor | src/BaiduBce/Services/Qns/QnsClient.php:41-47 | the client keeps its configuration, and its prefix is `/v1/` followed by the account as PHP converts it to a string, which `Valid()` records |
| Qns.QnsClient.SendRequest | src/BaiduBce/Services/Qns/QnsClient.php:422-444 | the request handed to the transport is `Prepare` of the call: the merged configuration, the default arguments, the default Content-Type and the prefixed path; the path is `/v1/`, the account of the client's configuration, then the request path |
| Qns.ConfigOverrideWins | src/BaiduBce/Services/Qns/QnsClient.php:432-440 | an empty per-call config leaves the client's; otherwise a per-call key wins and every other key keeps the client's value |
| Qns.ConfigMergeKeys | src/BaiduBce/Services/Qns/QnsClient.php:432-440 | the merged config lists the client's keys first, in order, and holds exactly the keys of both |
| Qns.PrepareKeepsCallerArguments | src/BaiduBce/Services/Qns/QnsClient.php:424-443 | every request has a Content-Type; other headers, the body and the parameters reach the transport unchanged, with missing parameters empty |
| Qns.ContentTypeOnlyWhenMissing | src/BaiduBce/Services/Qns/QnsClient.php:441-443 | a Content-Type the operation set is kept; a missing or null one becomes JSON |
| Qns.SetAttributesHeaders | src/BaiduBce/Services/Qns/QnsClient.php:172-180 | both set-attributes calls send exactly `If-Match: *` followed by the JSON Content-Type |
| Qns.ConfigOnlyRequests | src/BaiduBce/Services/Qns/QnsClient.php:424-444 | the seven config-only operations send no body, no parameters, only the JSON Content-Type and the merged config, to the prefixed path |
| Qns.CreateTopicDefaultsRequest | src/BaiduBce/Services/Qns/QnsClient.php:59-75 | createTopic with its defaults and no options is a PUT below the account prefix with the client's config, only the JSON Content-Type and the filtered body |

## Left out

- The HTTP call itself and request signing (`BceV1Signer`, `BceHttpClient`) are foreign code. `SendRequest` stops at the request it would hand to the transport.
- Response handling (`parseJsonResult`, `convertHttpHeadersToMetadata`) is outside this model. It depends on the transport's response.
- `parseOptions` is not modelled. Each operation takes the per-call configuration it extracts as a parameter.
- The base client's constructor is not modelled. The client's configuration is taken to be the array it was given.
- The JSON text of the body is not modelled. A body is the structured value passed to `json_encode`, so the `[]` versus `{}` encoding of an empty array is not captured.
- Integer-keyed arrays are not modelled, nor `array_merge`'s renumbering of them. Every array the client merges or filters has string keys; list literals are the separate `List` value.
- Parameters documented as integers are `int`. PHP's loose typing of these (strings, floats) is not modelled. `changeSubscriptionVisibility`'s `$visibilityTimeoutInSeconds` has no documented type and no default, so it is a `Value`, like the names, message bodies, receipt handles, `peek` and the push configuration strings.
- A `Value` is any PHP value except floats and objects. A float name, which PHP would write into the path as its decimal text, cannot be expressed.
- The default `$requestPath = '/'` of `sendRequest` is not modelled, because every operation passes a path.
- The header name `Content-Type` and the value `application/json; charset=utf-8` are the values of the SDK's `HttpHeaders::CONTENT_TYPE` and `HttpContentTypes::JSON` constants. Those files are not part of this model.
- A missing `account` key reads as null, so the prefix is `/v1/`. PHP's notice for the missing key is not modelled.
- Lemmas about lookups after a merge or a filter require arrays without repeated keys, which is how PHP arrays are.
- The service's behaviour (topic and subscription lifecycle, limits, long polling) is not modelled. It is on the server.

Three behaviours of the code are worth naming, because they are easy to misread:

- `sendTopic` sends two entries in `messages`: the message with its delay, then the message again without one (QnsClient.php:196-204). `QnsRequests.SendTopic` states the two entries.
- `setSubscriptionAttributes` does not filter its parameters, so both attributes are sent even when zero (QnsClient.php:321-330).
- The JSON Content-Type is added to every request, including GET and DELETE (QnsClient.php:441-443, `Qns.ConfigOnlyRequests`).
