/** The Android `AlexaConfiguration` factory. Each builder returns the
    configuration document its doc comment describes: one top-level key
    naming the subsystem (or the shared "aace.alexa" namespace) whose value
    holds the builder's parameters. Constraints that the doc comments place
    on the parameters are predicates beside the builders. */
module AlexaConfiguration {
  import opened JsonDoc

  /** Top-level namespace shared by the speaker manager, system, speech
      recognizer and external media player fragments. */
  const AlexaNamespace := "aace.alexa"

  // ------------------------------------------------------------------
  // Fragments that carry plain strings

  function DeviceInfoConfig(deviceSerialNumber: string, clientId: string, productId: string,
                            manufacturerName: string, description: string): (r: Json)
    ensures KeysAt(r, []) == {"deviceInfo"}
    ensures KeysAt(r, ["deviceInfo"])
         == {"deviceSerialNumber", "clientId", "productId", "manufacturerName", "description"}
    ensures Lookup(r, ["deviceInfo", "deviceSerialNumber"]) == Some(JString(deviceSerialNumber))
    ensures Lookup(r, ["deviceInfo", "clientId"]) == Some(JString(clientId))
    ensures Lookup(r, ["deviceInfo", "productId"]) == Some(JString(productId))
    ensures Lookup(r, ["deviceInfo", "manufacturerName"]) == Some(JString(manufacturerName))
    ensures Lookup(r, ["deviceInfo", "description"]) == Some(JString(description))
  {
    Single("deviceInfo", JObject(map[
      "deviceSerialNumber" := JString(deviceSerialNumber),
      "clientId" := JString(clientId),
      "productId" := JString(productId),
      "manufacturerName" := JString(manufacturerName),
      "description" := JString(description)]))
  }

  /** The `{ <component>: { "databaseFilePath": ... } }` shape shared by the
      storage fragments. */
  function DatabaseConfig(component: string, databaseFilePath: string): Json
  {
    Single(component, Single("databaseFilePath", JString(databaseFilePath)))
  }

  function AlertsConfig(databaseFilePath: string): (r: Json)
    ensures KeysAt(r, []) == {"alertsCapabilityAgent"}
    ensures KeysAt(r, ["alertsCapabilityAgent"]) == {"databaseFilePath"}
    ensures Lookup(r, ["alertsCapabilityAgent", "databaseFilePath"]) == Some(JString(databaseFilePath))
  {
    DatabaseConfig("alertsCapabilityAgent", databaseFilePath)
  }

  function NotificationsConfig(databaseFilePath: string): (r: Json)
    ensures KeysAt(r, []) == {"notifications"}
    ensures KeysAt(r, ["notifications"]) == {"databaseFilePath"}
    ensures Lookup(r, ["notifications", "databaseFilePath"]) == Some(JString(databaseFilePath))
  {
    DatabaseConfig("notifications", databaseFilePath)
  }

  function CertifiedSenderConfig(databaseFilePath: string): (r: Json)
    ensures KeysAt(r, []) == {"certifiedSender"}
    ensures KeysAt(r, ["certifiedSender"]) == {"databaseFilePath"}
    ensures Lookup(r, ["certifiedSender", "databaseFilePath"]) == Some(JString(databaseFilePath))
  {
    DatabaseConfig("certifiedSender", databaseFilePath)
  }

  function CapabilitiesDelegateConfig(databaseFilePath: string): (r: Json)
    ensures KeysAt(r, []) == {"capabilitiesDelegate"}
    ensures KeysAt(r, ["capabilitiesDelegate"]) == {"databaseFilePath"}
    ensures Lookup(r, ["capabilitiesDelegate", "databaseFilePath"]) == Some(JString(databaseFilePath))
  {
    DatabaseConfig("capabilitiesDelegate", databaseFilePath)
  }

  function MiscStorageConfig(databaseFilePath: string): (r: Json)
    ensures KeysAt(r, []) == {"miscDatabase"}
    ensures KeysAt(r, ["miscDatabase"]) == {"databaseFilePath"}
    ensures Lookup(r, ["miscDatabase", "databaseFilePath"]) == Some(JString(databaseFilePath))
  {
    DatabaseConfig("miscDatabase", databaseFilePath)
  }

  // ------------------------------------------------------------------
  // libcurl options: a Java null leaves its key out of the fragment

  function CurlConfigWithInterfaceAndProxy(certsPath: string, iface: Option<string>,
                                           proxy: Option<string>): (r: Json)
    ensures KeysAt(r, []) == {"libcurlUtils"}
    ensures "CURLOPT_CAPATH" in KeysAt(r, ["libcurlUtils"])
    ensures "CURLOPT_INTERFACE" in KeysAt(r, ["libcurlUtils"]) <==> iface.Some?
    ensures "CURLOPT_PROXY" in KeysAt(r, ["libcurlUtils"]) <==> proxy.Some?
    ensures KeysAt(r, ["libcurlUtils"]) <= {"CURLOPT_CAPATH", "CURLOPT_INTERFACE", "CURLOPT_PROXY"}
    ensures Lookup(r, ["libcurlUtils", "CURLOPT_CAPATH"]) == Some(JString(certsPath))
    ensures iface.Some? ==> Lookup(r, ["libcurlUtils", "CURLOPT_INTERFACE"]) == Some(JString(iface.value))
    ensures proxy.Some? ==> Lookup(r, ["libcurlUtils", "CURLOPT_PROXY"]) == Some(JString(proxy.value))
  {
    var options := map["CURLOPT_CAPATH" := JString(certsPath)];
    var options := if iface.Some? then options["CURLOPT_INTERFACE" := JString(iface.value)] else options;
    var options := if proxy.Some? then options["CURLOPT_PROXY" := JString(proxy.value)] else options;
    Single("libcurlUtils", JObject(options))
  }

  /** `createCurlConfig(certsPath, iface)`: forwards a null proxy. */
  function CurlConfigWithInterface(certsPath: string, iface: Option<string>): (r: Json)
    ensures KeysAt(r, []) == {"libcurlUtils"}
    ensures KeysAt(r, ["libcurlUtils"]) == {"CURLOPT_CAPATH"} + (if iface.Some? then {"CURLOPT_INTERFACE"} else {})
    ensures "CURLOPT_PROXY" !in KeysAt(r, ["libcurlUtils"])
    ensures "CURLOPT_INTERFACE" in KeysAt(r, ["libcurlUtils"]) <==> iface.Some?
    ensures Lookup(r, ["libcurlUtils", "CURLOPT_CAPATH"]) == Some(JString(certsPath))
    ensures iface.Some? ==> Lookup(r, ["libcurlUtils", "CURLOPT_INTERFACE"]) == Some(JString(iface.value))
  {
    CurlConfigWithInterfaceAndProxy(certsPath, iface, None)
  }

  /** `createCurlConfig(certsPath)`: forwards a null interface and proxy. */
  function CurlConfig(certsPath: string): (r: Json)
    ensures KeysAt(r, []) == {"libcurlUtils"}
    ensures KeysAt(r, ["libcurlUtils"]) == {"CURLOPT_CAPATH"}
    ensures Lookup(r, ["libcurlUtils", "CURLOPT_CAPATH"]) == Some(JString(certsPath))
  {
    CurlConfigWithInterfaceAndProxy(certsPath, None, None)
  }

  // ------------------------------------------------------------------
  // Device settings

  /** The locale list the one-argument overload passes. */
  const BaselineLocales: seq<string> :=
    ["en-US", "en-GB", "de-DE", "en-IN", "en-CA", "ja-JP", "en-AU", "fr-FR", "it-IT",
     "es-ES", "es-MX", "fr-CA", "es-US", "hi-IN", "pt-BR"]
  const BaselineDefaultLocale := "en-US"
  const BaselineTimezone := "America/Vancouver"
  /** The locale combinations the one-argument overload passes. */
  const BaselineLocaleCombinations: seq<seq<string>> :=
    [["en-CA", "fr-CA"], ["fr-CA", "en-CA"], ["en-US", "es-US"], ["es-US", "en-US"],
     ["en-IN", "hi-IN"], ["hi-IN", "en-IN"]]

  /** The combinations the documentation of `localeCombinations` permits.
      It is the same list as `BaselineLocaleCombinations`, but written down
      separately: that one is what the one-argument overload passes, this
      one is what the parameter description allows. */
  const PermittedLocaleCombinations: seq<seq<string>> :=
    [["en-CA", "fr-CA"], ["fr-CA", "en-CA"], ["en-US", "es-US"],
     ["es-US", "en-US"], ["en-IN", "hi-IN"], ["hi-IN", "en-IN"]]

  /** A JSON array of locale pairs, in the order given. */
  function LocaleCombinationsArray(combinations: seq<seq<string>>): (r: Json)
    ensures r.JArray? && |r.items| == |combinations|
    ensures forall i :: 0 <= i < |combinations| ==> r.items[i] == StringArray(combinations[i])
  {
    JArray(seq(|combinations|, i requires 0 <= i < |combinations| => StringArray(combinations[i])))
  }

  /** `createDeviceSettingsConfig` with all five arguments. */
  function DeviceSettingsConfig(databaseFilePath: string, locales: seq<string>, defaultLocale: string,
                                defaultTimezone: string, localeCombinations: seq<seq<string>>): (r: Json)
    ensures KeysAt(r, []) == {"deviceSettings"}
    ensures KeysAt(r, ["deviceSettings"])
         == {"databaseFilePath", "locales", "defaultLocale", "localeCombinations", "defaultTimezone"}
    ensures Lookup(r, ["deviceSettings", "databaseFilePath"]) == Some(JString(databaseFilePath))
    ensures Lookup(r, ["deviceSettings", "locales"]) == Some(StringArray(locales))
    ensures Lookup(r, ["deviceSettings", "defaultLocale"]) == Some(JString(defaultLocale))
    ensures Lookup(r, ["deviceSettings", "localeCombinations"]) == Some(LocaleCombinationsArray(localeCombinations))
    ensures Lookup(r, ["deviceSettings", "defaultTimezone"]) == Some(JString(defaultTimezone))
  {
    Single("deviceSettings", JObject(map[
      "databaseFilePath" := JString(databaseFilePath),
      "locales" := StringArray(locales),
      "defaultLocale" := JString(defaultLocale),
      "localeCombinations" := LocaleCombinationsArray(localeCombinations),
      "defaultTimezone" := JString(defaultTimezone)]))
  }

  /** `createDeviceSettingsConfig` with four arguments: no locale combinations. */
  function DeviceSettingsConfigWithoutCombinations(databaseFilePath: string, locales: seq<string>,
                                                   defaultLocale: string, defaultTimezone: string): (r: Json)
    ensures KeysAt(r, []) == {"deviceSettings"}
    ensures KeysAt(r, ["deviceSettings"]) == {"databaseFilePath", "locales", "defaultLocale", "defaultTimezone"}
    ensures Lookup(r, ["deviceSettings", "databaseFilePath"]) == Some(JString(databaseFilePath))
    ensures Lookup(r, ["deviceSettings", "locales"]) == Some(StringArray(locales))
    ensures Lookup(r, ["deviceSettings", "defaultLocale"]) == Some(JString(defaultLocale))
    ensures Lookup(r, ["deviceSettings", "defaultTimezone"]) == Some(JString(defaultTimezone))
  {
    Single("deviceSettings", JObject(map[
      "databaseFilePath" := JString(databaseFilePath),
      "locales" := StringArray(locales),
      "defaultLocale" := JString(defaultLocale),
      "defaultTimezone" := JString(defaultTimezone)]))
  }

  /** The four-argument overload differs from the five-argument one only in
      leaving out `localeCombinations`. */
  lemma WithoutCombinationsOmitsOnlyCombinations(databaseFilePath: string, locales: seq<string>, defaultLocale: string,
                                                 defaultTimezone: string, localeCombinations: seq<seq<string>>)
    ensures DeviceSettingsConfigWithoutCombinations(databaseFilePath, locales, defaultLocale, defaultTimezone)
         == Single("deviceSettings", JObject(
              DeviceSettingsConfig(databaseFilePath, locales, defaultLocale, defaultTimezone, localeCombinations)
                .fields["deviceSettings"].fields - {"localeCombinations"}))
  {
    var full := DeviceSettingsConfig(databaseFilePath, locales, defaultLocale, defaultTimezone, localeCombinations)
      .fields["deviceSettings"].fields - {"localeCombinations"};
    var partial := DeviceSettingsConfigWithoutCombinations(databaseFilePath, locales, defaultLocale, defaultTimezone)
      .fields["deviceSettings"].fields;
    assert full.Keys == partial.Keys;
    assert full == partial;
  }

  /** `createDeviceSettingsConfig(databaseFilePath)`: the baseline arguments. */
  function BaselineDeviceSettingsConfig(databaseFilePath: string): (r: Json)
    ensures Lookup(r, ["deviceSettings", "databaseFilePath"]) == Some(JString(databaseFilePath))
    ensures Lookup(r, ["deviceSettings", "defaultLocale"]) == Some(JString("en-US"))
    ensures Lookup(r, ["deviceSettings", "defaultTimezone"]) == Some(JString("America/Vancouver"))
  {
    DeviceSettingsConfig(databaseFilePath, BaselineLocales, BaselineDefaultLocale, BaselineTimezone,
                         BaselineLocaleCombinations)
  }

  /** A locale combination the documentation allows for the given locale list:
      one of the permitted pairs, each of whose locales is in the list. */
  function ValidLocaleCombination(combination: seq<string>, locales: seq<string>): (r: bool)
    ensures r ==> |combination| == 2 && combination[0] != combination[1]
    ensures r ==> combination[0] in locales && combination[1] in locales
    ensures r ==> [combination[1], combination[0]] in PermittedLocaleCombinations
  {
    combination in PermittedLocaleCombinations &&
    forall l :: l in combination ==> l in locales
  }

  /** The constraint the device-settings documentation puts on its
      arguments (every combination permitted, and its locales in the list),
      together with one the model adds: the default locale is one of the
      listed locales. */
  function ValidDeviceSettings(locales: seq<string>, defaultLocale: string, localeCombinations: seq<seq<string>>)
    : (r: bool)
    ensures r ==> defaultLocale in locales
    ensures r ==> forall c :: c in localeCombinations ==>
      |c| == 2 && c[0] in locales && c[1] in locales && [c[1], c[0]] in PermittedLocaleCombinations
  {
    defaultLocale in locales &&
    forall i :: 0 <= i < |localeCombinations| ==> ValidLocaleCombination(localeCombinations[i], locales)
  }

  /** The `locales` array as the documentation of the one-argument overload
      writes it out. */
  const DocumentedBaselineLocales: Json := JArray([
    JString("en-US"), JString("en-GB"), JString("de-DE"), JString("en-IN"), JString("en-CA"),
    JString("ja-JP"), JString("en-AU"), JString("fr-FR"), JString("it-IT"), JString("es-ES"),
    JString("es-MX"), JString("fr-CA"), JString("es-US"), JString("hi-IN"), JString("pt-BR")])

  /** The `localeCombinations` array as that documentation writes it out. */
  const DocumentedBaselineCombinations: Json := JArray([
    JArray([JString("en-CA"), JString("fr-CA")]), JArray([JString("fr-CA"), JString("en-CA")]),
    JArray([JString("en-US"), JString("es-US")]), JArray([JString("es-US"), JString("en-US")]),
    JArray([JString("en-IN"), JString("hi-IN")]), JArray([JString("hi-IN"), JString("en-IN")])])

  /** The device-settings fragment exactly as that documentation writes it out. */
  function DocumentedBaselineDeviceSettings(databaseFilePath: string): Json
  {
    Single("deviceSettings", JObject(map[
      "databaseFilePath" := JString(databaseFilePath),
      "locales" := DocumentedBaselineLocales,
      "defaultLocale" := JString("en-US"),
      "localeCombinations" := DocumentedBaselineCombinations,
      "defaultTimezone" := JString("America/Vancouver")]))
  }

  lemma BaselineLocalesMatchDocumentation()
    ensures StringArray(BaselineLocales) == DocumentedBaselineLocales
  {
    var items := StringArray(BaselineLocales).items;
    var documented := DocumentedBaselineLocales.items;
    forall i | 0 <= i < 15 ensures items[i] == documented[i] { }
    assert items == documented;
  }

  lemma BaselineCombinationsMatchDocumentation()
    ensures LocaleCombinationsArray(BaselineLocaleCombinations) == DocumentedBaselineCombinations
  {
    var items := LocaleCombinationsArray(BaselineLocaleCombinations).items;
    assert |items| == |DocumentedBaselineCombinations.items|;
    forall i | 0 <= i < |items| ensures items[i] == DocumentedBaselineCombinations.items[i] {
      var pair := BaselineLocaleCombinations[i];
      assert StringArray(pair).items == [JString(pair[0]), JString(pair[1])];
    }
  }

  /** The one-argument overload yields the documented fragment. */
  lemma BaselineDeviceSettingsMatchesDocumentation(databaseFilePath: string)
    ensures BaselineDeviceSettingsConfig(databaseFilePath) == DocumentedBaselineDeviceSettings(databaseFilePath)
  {
    BaselineLocalesMatchDocumentation();
    BaselineCombinationsMatchDocumentation();
  }

  /** The baseline arguments meet `ValidDeviceSettings`: the documented
      combination constraint and the listed default locale. */
  lemma BaselineDeviceSettingsValid()
    ensures ValidDeviceSettings(BaselineLocales, BaselineDefaultLocale, BaselineLocaleCombinations)
  {
    forall i | 0 <= i < |BaselineLocaleCombinations|
      ensures ValidLocaleCombination(BaselineLocaleCombinations[i], BaselineLocales)
    {
      assert BaselineLocaleCombinations[i] == PermittedLocaleCombinations[i];
    }
  }

  /** The baseline lists: 15 distinct locales, six pairs, closed under swapping. */
  lemma BaselineListsShape()
    ensures |BaselineLocales| == 15
    ensures forall i, j :: 0 <= i < j < |BaselineLocales| ==> BaselineLocales[i] != BaselineLocales[j]
    ensures |BaselineLocaleCombinations| == 6
    ensures forall c :: c in BaselineLocaleCombinations ==> |c| == 2 && [c[1], c[0]] in BaselineLocaleCombinations
  {
  }

  // ------------------------------------------------------------------
  // Legacy settings (deprecated)

  const LegacyDefaultLocale := "en-US"

  /** `createSettingsConfig(databaseFilePath, locale)`. */
  function SettingsConfig(databaseFilePath: string, locale: string): (r: Json)
    ensures KeysAt(r, []) == {"settings"}
    ensures KeysAt(r, ["settings"]) == {"databaseFilePath", "defaultAVSClientSettings"}
    ensures KeysAt(r, ["settings", "defaultAVSClientSettings"]) == {"locale"}
    ensures Lookup(r, ["settings", "databaseFilePath"]) == Some(JString(databaseFilePath))
    ensures Lookup(r, ["settings", "defaultAVSClientSettings", "locale"]) == Some(JString(locale))
  {
    Single("settings", JObject(map[
      "databaseFilePath" := JString(databaseFilePath),
      "defaultAVSClientSettings" := Single("locale", JString(locale))]))
  }

  /** `createSettingsConfig(databaseFilePath)`: the locale defaults to "en-US". */
  function SettingsConfigWithDefaultLocale(databaseFilePath: string): (r: Json)
    ensures KeysAt(r, []) == {"settings"}
    ensures KeysAt(r, ["settings"]) == {"databaseFilePath", "defaultAVSClientSettings"}
    ensures KeysAt(r, ["settings", "defaultAVSClientSettings"]) == {"locale"}
    ensures Lookup(r, ["settings", "databaseFilePath"]) == Some(JString(databaseFilePath))
    ensures Lookup(r, ["settings", "defaultAVSClientSettings", "locale"]) == Some(JString("en-US"))
  {
    SettingsConfig(databaseFilePath, LegacyDefaultLocale)
  }

  // ------------------------------------------------------------------
  // Fragments under the "aace.alexa" namespace

  function SpeakerManagerConfig(enabled: bool): (r: Json)
    ensures KeysAt(r, []) == {"aace.alexa"}
    ensures KeysAt(r, ["aace.alexa"]) == {"speakerManager"}
    ensures KeysAt(r, ["aace.alexa", "speakerManager"]) == {"enabled"}
    ensures Lookup(r, ["aace.alexa", "speakerManager", "enabled"]) == Some(JBool(enabled))
  {
    Single(AlexaNamespace, Single("speakerManager", Single("enabled", JBool(enabled))))
  }

  function SystemConfig(firmwareVersion: Int32): (r: Json)
    ensures KeysAt(r, []) == {"aace.alexa"}
    ensures KeysAt(r, ["aace.alexa"]) == {"system"}
    ensures KeysAt(r, ["aace.alexa", "system"]) == {"firmwareVersion"}
    ensures Lookup(r, ["aace.alexa", "system", "firmwareVersion"]) == Some(JInt(firmwareVersion))
  {
    Single(AlexaNamespace, Single("system", Single("firmwareVersion", JInt(firmwareVersion))))
  }

  function SpeechRecognizerConfig(encoderName: string): (r: Json)
    ensures KeysAt(r, []) == {"aace.alexa"}
    ensures KeysAt(r, ["aace.alexa"]) == {"speechRecognizer"}
    ensures KeysAt(r, ["aace.alexa", "speechRecognizer"]) == {"encoder"}
    ensures KeysAt(r, ["aace.alexa", "speechRecognizer", "encoder"]) == {"name"}
    ensures Lookup(r, ["aace.alexa", "speechRecognizer", "encoder", "name"]) == Some(JString(encoderName))
  {
    Single(AlexaNamespace, Single("speechRecognizer", Single("encoder", Single("name", JString(encoderName)))))
  }

  function ExternalMediaPlayerConfig(agent: string): (r: Json)
    ensures KeysAt(r, []) == {"aace.alexa"}
    ensures KeysAt(r, ["aace.alexa"]) == {"externalMediaPlayer"}
    ensures KeysAt(r, ["aace.alexa", "externalMediaPlayer"]) == {"agent"}
    ensures Lookup(r, ["aace.alexa", "externalMediaPlayer", "agent"]) == Some(JString(agent))
  {
    Single(AlexaNamespace, Single("externalMediaPlayer", Single("agent", JString(agent))))
  }

  // ------------------------------------------------------------------
  // Template runtime timeouts

  datatype TemplateRuntimeTimeoutType =
    | DisplayCardTtsFinishedTimeout
    | DisplayCardAudioPlaybackFinishedTimeout
    | DisplayCardAudioPlaybackStoppedPausedTimeout

  /** `toString()`: the name of the Java constant, never an accepted key. */
  function Name(t: TemplateRuntimeTimeoutType): (r: string)
    ensures r !in AcceptedTimeoutKeys
  {
    match t
    case DisplayCardTtsFinishedTimeout => "DISPLAY_CARD_TTS_FINISHED_TIMEOUT"
    case DisplayCardAudioPlaybackFinishedTimeout => "DISPLAY_CARD_AUDIO_PLAYBACK_FINISHED_TIMEOUT"
    case DisplayCardAudioPlaybackStoppedPausedTimeout => "DISPLAY_CARD_AUDIO_PLAYBACK_STOPPED_PAUSED_TIMEOUT"
  }

  /** The keys the documentation of `createTemplateRuntimeTimeoutConfig`
      lists as accepted under `templateRuntimeCapabilityAgent`. */
  const AcceptedTimeoutKeys: set<string> :=
    {"displayCardTTSFinishedTimeout", "displayCardAudioPlaybackFinishedTimeout",
     "displayCardAudioPlaybackStoppedPausedTimeout"}

  /** `getKey()`: the document key the timeout is written under. */
  function Key(t: TemplateRuntimeTimeoutType): (r: string)
    ensures r in AcceptedTimeoutKeys
  {
    match t
    case DisplayCardTtsFinishedTimeout => "displayCardTTSFinishedTimeout"
    case DisplayCardAudioPlaybackFinishedTimeout => "displayCardAudioPlaybackFinishedTimeout"
    case DisplayCardAudioPlaybackStoppedPausedTimeout => "displayCardAudioPlaybackStoppedPausedTimeout"
  }

  /** The constant whose name is `name`, as `valueOf` finds it. */
  function TimeoutTypeNamed(name: string): (r: Option<TemplateRuntimeTimeoutType>)
    ensures r.Some? ==> Name(r.value) == name
    ensures r.None? ==> forall t :: Name(t) != name
  {
    if name == "DISPLAY_CARD_TTS_FINISHED_TIMEOUT" then Some(DisplayCardTtsFinishedTimeout)
    else if name == "DISPLAY_CARD_AUDIO_PLAYBACK_FINISHED_TIMEOUT" then Some(DisplayCardAudioPlaybackFinishedTimeout)
    else if name == "DISPLAY_CARD_AUDIO_PLAYBACK_STOPPED_PAUSED_TIMEOUT" then Some(DisplayCardAudioPlaybackStoppedPausedTimeout)
    else None
  }

  /** The constant whose key is `key`. */
  function TimeoutTypeWithKey(key: string): (r: Option<TemplateRuntimeTimeoutType>)
    ensures r.Some? ==> Key(r.value) == key
    ensures r.None? ==> forall t :: Key(t) != key
  {
    if key == "displayCardTTSFinishedTimeout" then Some(DisplayCardTtsFinishedTimeout)
    else if key == "displayCardAudioPlaybackFinishedTimeout" then Some(DisplayCardAudioPlaybackFinishedTimeout)
    else if key == "displayCardAudioPlaybackStoppedPausedTimeout" then Some(DisplayCardAudioPlaybackStoppedPausedTimeout)
    else None
  }

  /** Distinct constants have distinct names and distinct keys, and a
      constant's name is never a key. */
  lemma NamesAndKeysDistinct(a: TemplateRuntimeTimeoutType, b: TemplateRuntimeTimeoutType)
    ensures Key(a) == Key(b) <==> a == b
    ensures Name(a) == Name(b) <==> a == b
    ensures Name(a) != Key(b)
    ensures TimeoutTypeWithKey(Key(a)) == Some(a) && TimeoutTypeNamed(Name(a)) == Some(a)
  {
  }

  /** `TemplateRuntimeTimeout`: its getters `getType()` and `getValue()` are
      the two fields. */
  datatype TemplateRuntimeTimeout = TemplateRuntimeTimeout(timeoutType: TemplateRuntimeTimeoutType, value: Int32)

  /** No later entry of the list has the same type as entry `i`. */
  predicate LastOfType(timeouts: seq<TemplateRuntimeTimeout>, i: int)
  {
    0 <= i < |timeouts| && forall j :: i < j < |timeouts| ==> timeouts[j].timeoutType != timeouts[i].timeoutType
  }

  function TimeoutKey(t: TemplateRuntimeTimeout): string { Key(t.timeoutType) }
  function TimeoutValue(t: TemplateRuntimeTimeout): Json { JInt(t.value) }

  /** `createTemplateRuntimeTimeoutConfig`: one key per timeout type in the
      list; when a type occurs twice the later entry is written last. */
  function TemplateRuntimeTimeoutConfig(timeouts: seq<TemplateRuntimeTimeout>): (r: Json)
    ensures KeysAt(r, []) == {"templateRuntimeCapabilityAgent"}
    ensures KeysAt(r, ["templateRuntimeCapabilityAgent"]) == set t | t in timeouts :: Key(t.timeoutType)
    ensures forall i :: LastOfType(timeouts, i) ==>
      Lookup(r, ["templateRuntimeCapabilityAgent", Key(timeouts[i].timeoutType)]) == Some(JInt(timeouts[i].value))
  {
    var table := ObjectFrom(timeouts, TimeoutKey, TimeoutValue);
    var r := Single("templateRuntimeCapabilityAgent", JObject(table));
    assert KeysAt(r, ["templateRuntimeCapabilityAgent"]) == set t | t in timeouts :: Key(t.timeoutType) by {
      ObjectFromKeys(timeouts, TimeoutKey, TimeoutValue);
    }
    assert forall i :: LastOfType(timeouts, i) ==>
      Lookup(r, ["templateRuntimeCapabilityAgent", Key(timeouts[i].timeoutType)]) == Some(JInt(timeouts[i].value)) by {
      ObjectFromLastWins(timeouts, TimeoutKey, TimeoutValue);
      forall i | LastOfType(timeouts, i)
        ensures Lookup(r, ["templateRuntimeCapabilityAgent", Key(timeouts[i].timeoutType)]) == Some(JInt(timeouts[i].value))
      {
        forall j | i < j < |timeouts| ensures TimeoutKey(timeouts[j]) != TimeoutKey(timeouts[i]) {
          NamesAndKeysDistinct(timeouts[j].timeoutType, timeouts[i].timeoutType);
        }
        assert LastWithKey(timeouts, TimeoutKey, i);
        LookupTwo(r, "templateRuntimeCapabilityAgent", Key(timeouts[i].timeoutType));
      }
    }
    r
  }

  /** When every type occurs at most once, every entry is written under its key. */
  lemma DistinctTimeoutsAllWritten(timeouts: seq<TemplateRuntimeTimeout>)
    requires forall i, j :: 0 <= i < j < |timeouts| ==> timeouts[i].timeoutType != timeouts[j].timeoutType
    ensures forall i :: 0 <= i < |timeouts| ==>
      Lookup(TemplateRuntimeTimeoutConfig(timeouts), ["templateRuntimeCapabilityAgent", Key(timeouts[i].timeoutType)])
        == Some(JInt(timeouts[i].value))
  {
    assert forall i :: 0 <= i < |timeouts| ==> LastOfType(timeouts, i);
  }

  // ------------------------------------------------------------------
  // Equalizer

  datatype EqualizerBand = Bass | Midrange | Treble

  function BandName(b: EqualizerBand): string
  {
    match b
    case Bass => "BASS"
    case Midrange => "MIDRANGE"
    case Treble => "TREBLE"
  }

  const AllBandNames: set<string> := {"BASS", "MIDRANGE", "TREBLE"}

  datatype EqualizerBandLevel = EqualizerBandLevel(band: EqualizerBand, level: Int32)

  /** No later level of the list is for the same band as level `i`. */
  predicate LastForBand(levels: seq<EqualizerBandLevel>, i: int)
  {
    0 <= i < |levels| && forall j :: i < j < |levels| ==> levels[j].band != levels[i].band
  }

  function Enabled(b: EqualizerBand): Json { JBool(true) }
  function LevelBandName(l: EqualizerBandLevel): string { BandName(l.band) }
  function LevelValue(l: EqualizerBandLevel): Json { JInt(l.level) }

  /** `equalizer.bands`: each band given is declared with the value true. */
  function SupportedBandsObject(bands: seq<EqualizerBand>): (m: map<string, Json>)
    ensures m.Keys == set b | b in bands :: BandName(b)
    ensures forall k :: k in m ==> m[k] == JBool(true)
  {
    ObjectFromKeys(bands, BandName, Enabled);
    ObjectFromValues(bands, BandName, Enabled);
    ObjectFrom(bands, BandName, Enabled)
  }

  /** `equalizer.defaultState.bands`: each band given with its level; a
      later level for the same band is written last. */
  function DefaultBandLevelsObject(levels: seq<EqualizerBandLevel>): (m: map<string, Json>)
    ensures m.Keys == set l | l in levels :: BandName(l.band)
    ensures forall k :: k in m ==> exists l :: l in levels && BandName(l.band) == k && m[k] == JInt(l.level)
    ensures forall i :: LastForBand(levels, i) ==> m[BandName(levels[i].band)] == JInt(levels[i].level)
  {
    ObjectFromKeys(levels, LevelBandName, LevelValue);
    ObjectFromValues(levels, LevelBandName, LevelValue);
    ObjectFromLastWins(levels, LevelBandName, LevelValue);
    var m := ObjectFrom(levels, LevelBandName, LevelValue);
    assert forall i :: LastForBand(levels, i) ==> LastWithKey(levels, LevelBandName, i);
    m
  }

  /** The members of the `equalizer` object. */
  function EqualizerBranches(supportedBands: Option<seq<EqualizerBand>>, minLevel: Int32, maxLevel: Int32,
                             defaultBandLevels: Option<seq<EqualizerBandLevel>>): (m: map<string, Json>)
    ensures m.Keys
         == {"minLevel", "maxLevel"}
          + (if supportedBands.Some? then {"bands"} else {})
          + (if defaultBandLevels.Some? then {"defaultState"} else {})
    ensures m["minLevel"] == JInt(minLevel) && m["maxLevel"] == JInt(maxLevel)
    ensures supportedBands.Some? ==> m["bands"] == JObject(SupportedBandsObject(supportedBands.value))
    ensures defaultBandLevels.Some? ==>
      m["defaultState"] == Single("bands", JObject(DefaultBandLevelsObject(defaultBandLevels.value)))
  {
    var m := map["minLevel" := JInt(minLevel), "maxLevel" := JInt(maxLevel)];
    var m := if supportedBands.Some? then m["bands" := JObject(SupportedBandsObject(supportedBands.value))] else m;
    if defaultBandLevels.Some?
    then m["defaultState" := Single("bands", JObject(DefaultBandLevelsObject(defaultBandLevels.value)))]
    else m
  }

  /** `createEqualizerControllerConfig`: a null `supportedBands` or
      `defaultBandLevels` leaves its branch out. */
  function EqualizerControllerConfig(supportedBands: Option<seq<EqualizerBand>>, minLevel: Int32, maxLevel: Int32,
                                     defaultBandLevels: Option<seq<EqualizerBandLevel>>): (r: Json)
    ensures KeysAt(r, []) == {"equalizer"}
    ensures KeysAt(r, ["equalizer"])
         == {"minLevel", "maxLevel"}
          + (if supportedBands.Some? then {"bands"} else {})
          + (if defaultBandLevels.Some? then {"defaultState"} else {})
    ensures Lookup(r, ["equalizer", "minLevel"]) == Some(JInt(minLevel))
    ensures Lookup(r, ["equalizer", "maxLevel"]) == Some(JInt(maxLevel))
    ensures supportedBands.Some? ==>
      Lookup(r, ["equalizer", "bands"]) == Some(JObject(SupportedBandsObject(supportedBands.value)))
    ensures defaultBandLevels.Some? ==>
      KeysAt(r, ["equalizer", "defaultState"]) == {"bands"} &&
      Lookup(r, ["equalizer", "defaultState", "bands"]) == Some(JObject(DefaultBandLevelsObject(defaultBandLevels.value)))
  {
    Single("equalizer", JObject(EqualizerBranches(supportedBands, minLevel, maxLevel, defaultBandLevels)))
  }

  /** Whether the device declares band `b` supported; omitting the band list
      enables every band. */
  function BandEnabled(supportedBands: Option<seq<EqualizerBand>>, b: EqualizerBand): (r: bool)
    ensures r <==> BandName(b) in EnabledBandNames(supportedBands)
  {
    supportedBands.None? || b in supportedBands.value
  }

  /** Some default level in the list is for band `b`. */
  predicate HasLevelFor(levels: seq<EqualizerBandLevel>, b: EqualizerBand)
  {
    exists l :: l in levels && l.band == b
  }

  /** The constraints the equalizer documentation puts on its arguments: a
      level range, and default levels, when given, for exactly the supported
      bands and inside the range. */
  function ValidEqualizerConfig(supportedBands: Option<seq<EqualizerBand>>, minLevel: int, maxLevel: int,
                                 defaultBandLevels: Option<seq<EqualizerBandLevel>>): (r: bool)
    ensures r ==> minLevel <= maxLevel
    ensures r && defaultBandLevels.Some? ==> forall l :: l in defaultBandLevels.value ==>
      BandName(l.band) in EnabledBandNames(supportedBands) && minLevel <= l.level <= maxLevel
  {
    minLevel <= maxLevel &&
    match defaultBandLevels
    case None => true
    case Some(levels) =>
      (forall b :: BandEnabled(supportedBands, b) ==> HasLevelFor(levels, b)) &&
      (forall l :: l in levels ==> BandEnabled(supportedBands, l.band) && minLevel <= l.level <= maxLevel)
  }

  /** The names of the enabled bands: those emitted under `equalizer.bands`,
      or all three when that branch is omitted. */
  function EnabledBandNames(supportedBands: Option<seq<EqualizerBand>>): (r: set<string>)
    ensures supportedBands.Some? ==> r == SupportedBandsObject(supportedBands.value).Keys
    ensures supportedBands.None? ==> r == AllBandNames
  {
    if supportedBands.Some? then set b | b in supportedBands.value :: BandName(b) else AllBandNames
  }

  /** Under the documented constraints the emitted default state names
      exactly the enabled bands. */
  lemma ValidEqualizerDefaultStateCoversEnabledBands(supportedBands: Option<seq<EqualizerBand>>,
                                                     minLevel: Int32, maxLevel: Int32,
                                                     levels: seq<EqualizerBandLevel>)
    requires ValidEqualizerConfig(supportedBands, minLevel, maxLevel, Some(levels))
    ensures DefaultBandLevelsObject(levels).Keys == EnabledBandNames(supportedBands)
  {
    var m := DefaultBandLevelsObject(levels);
    var enabled := EnabledBandNames(supportedBands);
    forall k | k in m ensures k in enabled {
      var l :| l in levels && BandName(l.band) == k;
      assert BandEnabled(supportedBands, l.band);
      if supportedBands.Some? {
        assert l.band in supportedBands.value;
      } else {
        assert l.band == Bass || l.band == Midrange || l.band == Treble;
      }
    }
    forall k | k in enabled ensures k in m {
      var b: EqualizerBand;
      if supportedBands.Some? {
        b :| b in supportedBands.value && BandName(b) == k;
      } else {
        b := if k == "BASS" then Bass else if k == "MIDRANGE" then Midrange else Treble;
      }
      assert BandEnabled(supportedBands, b);
      assert HasLevelFor(levels, b);
      var l :| l in levels && l.band == b;
    }
  }

  /** Under the documented constraints every emitted default level lies in
      [minLevel, maxLevel]. */
  lemma ValidEqualizerDefaultLevelsInRange(supportedBands: Option<seq<EqualizerBand>>,
                                           minLevel: Int32, maxLevel: Int32,
                                           levels: seq<EqualizerBandLevel>)
    requires ValidEqualizerConfig(supportedBands, minLevel, maxLevel, Some(levels))
    ensures forall k :: k in DefaultBandLevelsObject(levels) ==>
      DefaultBandLevelsObject(levels)[k].JInt? && minLevel <= DefaultBandLevelsObject(levels)[k].n <= maxLevel
  {
    var m := DefaultBandLevelsObject(levels);
    forall k | k in m ensures m[k].JInt? && minLevel <= m[k].n <= maxLevel {
      var l :| l in levels && BandName(l.band) == k && m[k] == JInt(l.level);
    }
  }

  /** The worked example: BASS and TREBLE enabled, levels 4 and -1 in [-6, 6]. */
  lemma EqualizerExampleAccepted()
    ensures ValidEqualizerConfig(Some([Bass, Treble]), -6, 6,
                                 Some([EqualizerBandLevel(Bass, 4), EqualizerBandLevel(Treble, -1)]))
    ensures DefaultBandLevelsObject([EqualizerBandLevel(Bass, 4), EqualizerBandLevel(Treble, -1)])
         == map["BASS" := JInt(4), "TREBLE" := JInt(-1)]
  {
    var levels := [EqualizerBandLevel(Bass, 4), EqualizerBandLevel(Treble, -1)];
    assert levels[0] in levels && levels[1] in levels;
    forall b | BandEnabled(Some([Bass, Treble]), b) ensures HasLevelFor(levels, b) {
      assert levels[if b == Bass then 0 else 1] in levels;
    }
    var m := DefaultBandLevelsObject(levels);
    assert m.Keys == {"BASS", "TREBLE"} by {
      assert (set l | l in levels :: BandName(l.band)) == {"BASS", "TREBLE"};
    }
    assert LastForBand(levels, 0) && LastForBand(levels, 1);
    assert m["BASS"] == JInt(4) && m["TREBLE"] == JInt(-1);
  }

  /** A default level for a band that is not enabled breaks the constraints. */
  lemma EqualizerExampleRejected()
    ensures !ValidEqualizerConfig(Some([Bass, Treble]), -6, 6,
                                  Some([EqualizerBandLevel(Bass, 4), EqualizerBandLevel(Midrange, -1)]))
  {
    var levels := [EqualizerBandLevel(Bass, 4), EqualizerBandLevel(Midrange, -1)];
    assert levels[1] in levels;
  }
}
