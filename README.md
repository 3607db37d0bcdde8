# Alexa Auto SDK configuration builders and the StartCapture message codec

This project models two pieces of the Alexa Auto SDK as pure Dafny functions over a
JSON-like value (`JsonDoc.Json`, whose objects are maps from key to value):

- **`AlexaConfiguration`**: the Android configuration factory. Each `create*Config` factory
  stands for a fixed configuration document, which its doc comment spells out. Examples are
  `deviceInfo`, `libcurlUtils`, `deviceSettings` and `aace.alexa.speakerManager`. Here each
  factory is a function that returns that document. The convenience overloads delegate with
  their baseline arguments: the 15-locale device-settings set, the `"en-US"` legacy locale,
  and null curl options. `TemplateRuntimeTimeoutType` is a closed enumeration that maps each
  constant to a name and a document key. The doc comments put constraints on the arguments:
  each locale combination must be a permitted pair whose locales are in `locales`, and
  default equalizer levels must cover the supported bands within `[minLevel, maxLevel]`.
  These constraints are predicates (`ValidDeviceSettings`, `ValidEqualizerConfig`).
  `ValidDeviceSettings` adds one constraint that the documentation does not state: the
  default locale must be one of `locales`. Lemmas show that the baseline arguments and the
  documented examples satisfy the predicates.
- **`StartCaptureMessage`**: the AASB `SpeechRecognizer.StartCapture` message. `to_json`
  builds objects with fixed keys and constant fields. `from_json` reads keys with `at`,
  which throws when the value is not an object or lacks the key. It converts the values
  with `get_to`, which throws when a value has the wrong type. Here a throw is a `None`
  result. Round trips are proved for the header, the payload and the whole message. So are
  the key sets of each object, and failure whenever a required key is missing. `Initiator`
  is a type parameter whose converters form an abstract `Codec`. Round trips assume only
  that the given initiator round-trips through that codec.

Java `int` and C++ `int` values are `Int32`. A Java `null` for an optional argument is
`None`. Duplicate entries, such as two timeouts of one type or two levels for one band, are
written one after another, so the last entry wins. That policy is `JsonDoc.ObjectFrom` with
its lemmas `ObjectFromKeys`, `ObjectFromValues` and `ObjectFromLastWins`.

The Java factories perform no checks: they only forward to native binders. So the
constraints are predicates beside the builders, and the builders themselves never fail. The equalizer doc comment shows
a sample with `"MIDRANGE": false`. The `supportedBands` parameter description says that only
the given bands are emitted, each as `true`, and the model follows the parameter
description.

## Model

| member | source | states |
|---|---|---|
| `AlexaConfiguration.DeviceInfoConfig` | platforms/android/modules/alexa/src/main/java/com/amazon/aace/alexa/config/AlexaConfiguration.java:28-65 | the document is exactly `deviceInfo` holding exactly the five documented keys, each the matching argument |
| `AlexaConfiguration.AlertsConfig` | platforms/android/modules/alexa/src/main/java/com/amazon/aace/alexa/config/AlexaConfiguration.java:71-95 | exactly `alertsCapabilityAgent.databaseFilePath`, set to the argument |
| `AlexaConfiguration.NotificationsConfig` | platforms/android/modules/alexa/src/main/java/com/amazon/aace/alexa/config/AlexaConfiguration.java:100-124 | exactly `notifications.databaseFilePath`, set to the argument |
| `AlexaConfiguration.CertifiedSenderConfig` | platforms/android/modules/alexa/src/main/java/com/amazon/aace/alexa/config/AlexaConfiguration.java:129-153 | exactly `certifiedSender.databaseFilePath`, set to the argument |
| `AlexaConfiguration.CapabilitiesDelegateConfig` | platforms/android/modules/alexa/src/main/java/com/amazon/aace/alexa/config/AlexaConfiguration.java:158-182 | exactly `capabilitiesDelegate.databaseFilePath`, set to the argument |
| `AlexaConfiguration.CurlConfig` | platforms/android/modules/alexa/src/main/java/com/amazon/aace/alexa/config/AlexaConfiguration.java:187-206 | forwarding null interface and proxy leaves `libcurlUtils` with `CURLOPT_CAPATH` only |
| `AlexaConfiguration.CurlConfigWithInterface` | platforms/android/modules/alexa/src/main/java/com/amazon/aace/alexa/config/AlexaConfiguration.java:208-231 | forwarding a null proxy: `libcurlUtils` is the only key and holds exactly `CURLOPT_CAPATH`, plus `CURLOPT_INTERFACE` exactly when given, with its value; never `CURLOPT_PROXY` |
| `AlexaConfiguration.CurlConfigWithInterfaceAndProxy` | platforms/android/modules/alexa/src/main/java/com/amazon/aace/alexa/config/AlexaConfiguration.java:233-264 | `CURLOPT_CAPATH` always present; `CURLOPT_INTERFACE` and `CURLOPT_PROXY` present if and only if their argument is non-null; no other key |
| `AlexaConfiguration.DeviceSettingsConfig` | platforms/android/modules/alexa/src/main/java/com/amazon/aace/alexa/config/AlexaConfiguration.java:269-307 | `deviceSettings` has exactly the five documented keys; the locale list and the combination pairs are emitted in their given order |
| `AlexaConfiguration.DeviceSettingsConfigWithoutCombinations` | platforms/android/modules/alexa/src/main/java/com/amazon/aace/alexa/config/AlexaConfiguration.java:365-398 | `deviceSettings` has exactly four keys, without `localeCombinations` |
| `AlexaConfiguration.WithoutCombinationsOmitsOnlyCombinations` | platforms/android/modules/alexa/src/main/java/com/amazon/aace/alexa/config/AlexaConfiguration.java:390-398 | the four-argument document is the five-argument one with `localeCombinations` removed, whatever the combinations |
| `AlexaConfiguration.ValidLocaleCombination` | platforms/android/modules/alexa/src/main/java/com/amazon/aace/alexa/config/AlexaConfiguration.java:293-296 | an allowed combination is one of the six permitted pairs whose two locales are both in `locales`. So it has two distinct locales, and its swap is also permitted |
| `AlexaConfiguration.ValidDeviceSettings` | platforms/android/modules/alexa/src/main/java/com/amazon/aace/alexa/config/AlexaConfiguration.java:293-296 | every combination is an allowed pair of listed locales; the model also requires the default locale to be listed |
| `AlexaConfiguration.BaselineDeviceSettingsConfig` | platforms/android/modules/alexa/src/main/java/com/amazon/aace/alexa/config/AlexaConfiguration.java:351-363 | the one-argument overload emits the given path, default locale `"en-US"` and timezone `"America/Vancouver"` |
| `AlexaConfiguration.BaselineLocalesMatchDocumentation` | platforms/android/modules/alexa/src/main/java/com/amazon/aace/alexa/config/AlexaConfiguration.java:318-357 | the locale array passed in code equals the 15-locale array in the doc comment |
| `AlexaConfiguration.BaselineCombinationsMatchDocumentation` | platforms/android/modules/alexa/src/main/java/com/amazon/aace/alexa/config/AlexaConfiguration.java:336-360 | the combination array passed in code equals the six documented pairs |
| `AlexaConfiguration.BaselineDeviceSettingsMatchesDocumentation` | platforms/android/modules/alexa/src/main/java/com/amazon/aace/alexa/config/AlexaConfiguration.java:314-360 | the one-argument overload yields exactly the JSON document written out in its doc comment |
| `AlexaConfiguration.BaselineDeviceSettingsValid` | platforms/android/modules/alexa/src/main/java/com/amazon/aace/alexa/config/AlexaConfiguration.java:293-296 | the baseline arguments satisfy `ValidDeviceSettings`: the default locale is in the list (a constraint the model adds), and each combination is a permitted pair whose locales are all in the list |
| `AlexaConfiguration.BaselineListsShape` | platforms/android/modules/alexa/src/main/java/com/amazon/aace/alexa/config/AlexaConfiguration.java:356-360 | 15 pairwise distinct baseline locales; six baseline pairs; the swap of every pair is also a baseline pair |
| `AlexaConfiguration.SettingsConfig` | platforms/android/modules/alexa/src/main/java/com/amazon/aace/alexa/config/AlexaConfiguration.java:406-437 | `settings` holds exactly `databaseFilePath` and `defaultAVSClientSettings`, and the latter holds exactly `locale`, set to the argument |
| `AlexaConfiguration.SettingsConfigWithDefaultLocale` | platforms/android/modules/alexa/src/main/java/com/amazon/aace/alexa/config/AlexaConfiguration.java:442-468 | the one-argument overload gives the same exact shape as `createSettingsConfig(path, locale)`, with `settings.defaultAVSClientSettings.locale` set to `"en-US"` |
| `AlexaConfiguration.MiscStorageConfig` | platforms/android/modules/alexa/src/main/java/com/amazon/aace/alexa/config/AlexaConfiguration.java:470-494 | exactly `miscDatabase.databaseFilePath`, set to the argument |
| `AlexaConfiguration.SpeakerManagerConfig` | platforms/android/modules/alexa/src/main/java/com/amazon/aace/alexa/config/AlexaConfiguration.java:499-523 | exactly `aace.alexa.speakerManager.enabled`, set to the flag |
| `AlexaConfiguration.SystemConfig` | platforms/android/modules/alexa/src/main/java/com/amazon/aace/alexa/config/AlexaConfiguration.java:528-552 | exactly `aace.alexa.system.firmwareVersion`, set to the version |
| `AlexaConfiguration.SpeechRecognizerConfig` | platforms/android/modules/alexa/src/main/java/com/amazon/aace/alexa/config/AlexaConfiguration.java:557-583 | exactly `aace.alexa.speechRecognizer.encoder.name`, set to the encoder name |
| `AlexaConfiguration.Name` | platforms/android/modules/alexa/src/main/java/com/amazon/aace/alexa/config/AlexaConfiguration.java:630-632 | `toString()` returns the constant's name, which is never one of the keys the timeout configuration accepts |
| `AlexaConfiguration.Key` | platforms/android/modules/alexa/src/main/java/com/amazon/aace/alexa/config/AlexaConfiguration.java:637-639 | `getKey()` returns one of the three keys that `createTemplateRuntimeTimeoutConfig` documents as accepted (lines 661-667) |
| `AlexaConfiguration.TimeoutTypeNamed` | platforms/android/modules/alexa/src/main/java/com/amazon/aace/alexa/config/AlexaConfiguration.java:588-632 | inverse of `toString`: the constant found has that name, and no constant has the name when none is found |
| `AlexaConfiguration.TimeoutTypeWithKey` | platforms/android/modules/alexa/src/main/java/com/amazon/aace/alexa/config/AlexaConfiguration.java:593-639 | inverse of `getKey`: the constant found has that key, and no constant has the key when none is found |
| `AlexaConfiguration.NamesAndKeysDistinct` | platforms/android/modules/alexa/src/main/java/com/amazon/aace/alexa/config/AlexaConfiguration.java:593-639 | `getKey` and `toString` are injective, no name is a key, and both round-trip through their inverses |
| `AlexaConfiguration.TemplateRuntimeTimeoutConfig` | platforms/android/modules/alexa/src/main/java/com/amazon/aace/alexa/config/AlexaConfiguration.java:659-690 | `templateRuntimeCapabilityAgent` has exactly the keys of the types in the list; each key holds the value of the last entry of that type |
| `AlexaConfiguration.DistinctTimeoutsAllWritten` | platforms/android/modules/alexa/src/main/java/com/amazon/aace/alexa/config/AlexaConfiguration.java:642-690 | with no repeated type, every `TemplateRuntimeTimeout` appears as `getKey()` of its type mapped to its `getValue()` |
| `AlexaConfiguration.SupportedBandsObject` | platforms/android/modules/alexa/src/main/java/com/amazon/aace/alexa/config/AlexaConfiguration.java:744-747 | `equalizer.bands` names exactly the given bands, each with the value `true` |
| `AlexaConfiguration.DefaultBandLevelsObject` | platforms/android/modules/alexa/src/main/java/com/amazon/aace/alexa/config/AlexaConfiguration.java:730-754 | `defaultState.bands` names exactly the bands given levels; each value is a given level for that band, namely the last one |
| `AlexaConfiguration.EqualizerControllerConfig` | platforms/android/modules/alexa/src/main/java/com/amazon/aace/alexa/config/AlexaConfiguration.java:695-764 | `minLevel`/`maxLevel` copied verbatim; `bands` present if and only if `supportedBands` is non-null; `defaultState.bands` present if and only if `defaultBandLevels` is non-null; no other key |
| `AlexaConfiguration.BandEnabled` | platforms/android/modules/alexa/src/main/java/com/amazon/aace/alexa/config/AlexaConfiguration.java:720-725 | a band is enabled if and only if its name is among the enabled band names: the bands declared supported, or every band when `supportedBands` is null |
| `AlexaConfiguration.ValidEqualizerConfig` | platforms/android/modules/alexa/src/main/java/com/amazon/aace/alexa/config/AlexaConfiguration.java:721-742 | the documented constraints: under them `minLevel <= maxLevel`, and every default level names an enabled band and lies in `[minLevel, maxLevel]` |
| `AlexaConfiguration.EnabledBandNames` | platforms/android/modules/alexa/src/main/java/com/amazon/aace/alexa/config/AlexaConfiguration.java:720-725 | the enabled bands are those emitted under `equalizer.bands`, or all three bands when that branch is omitted |
| `AlexaConfiguration.ValidEqualizerDefaultStateCoversEnabledBands` | platforms/android/modules/alexa/src/main/java/com/amazon/aace/alexa/config/AlexaConfiguration.java:720-735 | under the documented constraints, the emitted default state names exactly the enabled bands |
| `AlexaConfiguration.ValidEqualizerDefaultLevelsInRange` | platforms/android/modules/alexa/src/main/java/com/amazon/aace/alexa/config/AlexaConfiguration.java:730-742 | under the documented constraints, every emitted default level is an integer in `[minLevel, maxLevel]` |
| `AlexaConfiguration.EqualizerExampleAccepted` | platforms/android/modules/alexa/src/main/java/com/amazon/aace/alexa/config/AlexaConfiguration.java:701-716 | BASS and TREBLE with levels 4 and -1 in [-6, 6] meet the constraints and emit `{BASS: 4, TREBLE: -1}` |
| `AlexaConfiguration.EqualizerExampleRejected` | platforms/android/modules/alexa/src/main/java/com/amazon/aace/alexa/config/AlexaConfiguration.java:730-735 | a default level for MIDRANGE when only BASS and TREBLE are supported breaks the constraints |
| `AlexaConfiguration.ExternalMediaPlayerConfig` | platforms/android/modules/alexa/src/main/java/com/amazon/aace/alexa/config/AlexaConfiguration.java:770-794 | exactly `aace.alexa.externalMediaPlayer.agent`, set to the agent |
| `StartCaptureMessage.MessageDescriptionToJson` | extensions/aasb/modules/aasb-alexa/engine/include/AASB/Message/Alexa/SpeechRecognizer/StartCaptureMessage.h:110-115 | exactly `topic` = `"SpeechRecognizer"` and `action` = `"StartCapture"` |
| `StartCaptureMessage.MessageDescriptionFromJsonReadsNothing` | extensions/aasb/modules/aasb-alexa/engine/include/AASB/Message/Alexa/SpeechRecognizer/StartCaptureMessage.h:116-117 | the description's `from_json` never fails and ignores the document: it leaves the struct as it was |
| `StartCaptureMessage.HeaderToJson` | extensions/aasb/modules/aasb-alexa/engine/include/AASB/Message/Alexa/SpeechRecognizer/StartCaptureMessage.h:119-126 | exactly four keys; `version` `"3.0"` and `messageType` `"Publish"` whatever the header; plus `id` and the description |
| `StartCaptureMessage.HeaderFromJson` | extensions/aasb/modules/aasb-alexa/engine/include/AASB/Message/Alexa/SpeechRecognizer/StartCaptureMessage.h:127-130 | succeeds if and only if the object has a string `id` and any `messageDescription`; takes `id` from it and leaves the description as it was |
| `StartCaptureMessage.HeaderRoundTrip` | extensions/aasb/modules/aasb-alexa/engine/include/AASB/Message/Alexa/SpeechRecognizer/StartCaptureMessage.h:116-130 | deserialising a serialised header gives it back, `id` included |
| `StartCaptureMessage.HeaderIgnoresVersionAndType` | extensions/aasb/modules/aasb-alexa/engine/include/AASB/Message/Alexa/SpeechRecognizer/StartCaptureMessage.h:127-130 | changing or removing `version` or `messageType` never changes what the header reads |
| `StartCaptureMessage.PayloadToJson` | extensions/aasb/modules/aasb-alexa/engine/include/AASB/Message/Alexa/SpeechRecognizer/StartCaptureMessage.h:95-102 | exactly the keys `initiator`, `keywordBegin`, `keywordEnd`, `keyword`, each with the matching field |
| `StartCaptureMessage.PayloadFromJson` | extensions/aasb/modules/aasb-alexa/engine/include/AASB/Message/Alexa/SpeechRecognizer/StartCaptureMessage.h:103-108 | succeeds if and only if all four keys are present with convertible values; each field comes from its key |
| `StartCaptureMessage.PayloadRoundTrip` | extensions/aasb/modules/aasb-alexa/engine/include/AASB/Message/Alexa/SpeechRecognizer/StartCaptureMessage.h:95-108 | `from_json(to_json(p)) == p` whenever the initiator round-trips |
| `StartCaptureMessage.MessageToJson` | extensions/aasb/modules/aasb-alexa/engine/include/AASB/Message/Alexa/SpeechRecognizer/StartCaptureMessage.h:132-137 | exactly `header` and `payload`. The emitted header carries the message-level `version`, `messageType`, `topic` and `action` statics (lines 73-88) |
| `StartCaptureMessage.MessageFromJson` | extensions/aasb/modules/aasb-alexa/engine/include/AASB/Message/Alexa/SpeechRecognizer/StartCaptureMessage.h:138-141 | succeeds if and only if `header` and `payload` are present and each deserialises; the result holds both |
| `StartCaptureMessage.MessageRoundTrip` | extensions/aasb/modules/aasb-alexa/engine/include/AASB/Message/Alexa/SpeechRecognizer/StartCaptureMessage.h:132-141 | a serialised message deserialises to itself (so `header.id` and `payload` survive) whenever the initiator round-trips |
| `StartCaptureMessage.MissingRequiredKeyFails` | extensions/aasb/modules/aasb-alexa/engine/include/AASB/Message/Alexa/SpeechRecognizer/StartCaptureMessage.h:103-141 | a missing required key fails deserialisation. The keys are `header`, `payload`, `header.id`, `header.messageDescription` and the four payload keys |

## Left out

- The native binders (`create*ConfigBinder`) and `EngineConfiguration`'s native handle are
  outside this model. So are the handle's creation, ownership and release. Any check the native
  side makes, such as rejecting an unknown locale or `minLevel > maxLevel`, is not visible.
  Those constraints appear only as the documented predicates.
- The builders assume non-null Java strings, arrays and array elements for the required
  arguments. What the native side does with a null there is not visible. Only `iface` and
  `proxy` are optional (`Option`). So are the equalizer's `supportedBands` and `defaultBandLevels`.
- The native side's handling of duplicate timeout types or duplicate bands is not visible.
  The model picks "last entry wins" and states its results in those terms.
- The builders do not emit the Engine's equalizer defaults: all bands enabled, a range of
  -6..+6 dB, and 0 dB per band when the default state is omitted. The -6..+6 range and the
  0 dB levels are not modelled. The validity predicate (`BandEnabled`, `EnabledBandNames`)
  does use the all-bands rule when `supportedBands` is null.
- `createSystemConfig`'s doc sample quotes `<FIRMWARE_VERSION>` as a string, but the
  argument is an `int`. The model emits an integer.
- Merging fragments into one document happens in the Engine and is not modelled.
- `Header::id` is generated as a UUID at construction. That generation is not modelled:
  `id` is any string.
- `StartCaptureMessage::toString` (`dump(3)` formatting) is not modelled.
- The `Initiator` type and its JSON converters are not part of this model. They are a type
  parameter and a `Codec` of two functions.
- `from_json` fills its out-parameter field by field. When a later key throws, earlier fields
  have already changed. The model returns `None` and does not model that partial update.
- `get_to` into an `int` also converts booleans, floating-point numbers and out-of-range
  integers by casting. The model accepts only integers within 32 bits and treats the rest as failure.
- `NotificationsEngineImpl.h` only declares engine wiring and is not part of this model.
