/**
 * The public tracking API: how a standard event becomes a tracked event's
 * parameters, how user attributes are shaped (reserved `$` keys dropped, nil
 * values dropped, standard keys as their raw strings), and how the
 * dictionary and variadic attribute setters pick standard keys.
 */
module Events {
  import opened Wrappers

  /** A `String`-backed enum case, by its raw value. */
  datatype AttributeKey = AttributeKey(rawValue: string)

  /** The raw values of `StandardUserAttributeKey`'s eleven cases. */
  const StandardRawValues: set<string> := {
    "id", "application_installed_at", "first_name", "last_name", "email", "phone",
    "full_phone", "phone_country_code", "fcm_token", "apns_token", "created_at"
  }

  /** `StandardUserAttributeKey`: exactly the eleven cases. */
  type StandardUserAttributeKey = k: AttributeKey | k.rawValue in StandardRawValues witness AttributeKey("id")

  const Id: StandardUserAttributeKey := AttributeKey("id")
  const ApplicationInstalledAt: StandardUserAttributeKey := AttributeKey("application_installed_at")
  const FirstName: StandardUserAttributeKey := AttributeKey("first_name")
  const LastName: StandardUserAttributeKey := AttributeKey("last_name")
  const Email: StandardUserAttributeKey := AttributeKey("email")
  const Phone: StandardUserAttributeKey := AttributeKey("phone")
  const FullPhone: StandardUserAttributeKey := AttributeKey("full_phone")
  const PhoneCountryCode: StandardUserAttributeKey := AttributeKey("phone_country_code")
  const FcmToken: StandardUserAttributeKey := AttributeKey("fcm_token")
  const ApnsToken: StandardUserAttributeKey := AttributeKey("apns_token")
  const CreatedAt: StandardUserAttributeKey := AttributeKey("created_at")

  /** `StandardUserAttributeKey(rawValue:)`. */
  function KeyForRawValue(s: string): (r: Option<StandardUserAttributeKey>)
    ensures r.Some? <==> s in StandardRawValues
    ensures r.Some? ==> r.value.rawValue == s
  {
    if s in StandardRawValues then Some(AttributeKey(s)) else None
  }

  datatype StandardEvent =
    | DeepLinkOpen(deepLinkUrl: string)
    | OnboardingStart
    | OnboardingComplete
    | PushNotificationReceive(receivedId: Option<string>)
    | PushNotificationOpen(openedId: Option<string>)
    | CoreSessionStart
    | CoreSessionAbandon
    | CoreSessionComplete
    | SignUp
    | LogIn
    | LogOut
    | UserAttributes(standard: map<StandardUserAttributeKey, Option<Value>>, custom: map<string, Option<Value>>)
    | Base(name: string, params: map<string, Value>)

  /**
   * The name an event is tracked under: `EventTypeConversion.name(for:)` of
   * a standard event (that conversion is not part of this model), or the
   * caller's own name for a `base` event.
   */
  datatype EventName = StandardName(event: StandardEvent) | CustomName(name: string)

  /** A call to the internal `track(eventName:params:customParams:)`; omitted arguments are empty. */
  datatype TrackCall = TrackCall(name: EventName, params: map<string, Value>, customParams: map<string, Value>)

  /** Keys beginning with `$` are reserved for the SDK. */
  predicate IsReserved(key: string) {
    |key| > 0 && key[0] == '$'
  }

  /** The standard attributes as parameters: non-nil values under their raw keys. */
  function StandardParams(standard: map<StandardUserAttributeKey, Option<Value>>): map<string, Value> {
    map k | k in standard && standard[k].Some? :: k.rawValue := standard[k].value
  }

  /** Each non-nil standard attribute appears under its raw key, and only those keys appear. */
  lemma StandardParamsMeaning(standard: map<StandardUserAttributeKey, Option<Value>>)
    ensures forall k :: k in standard && standard[k].Some? ==>
              k.rawValue in StandardParams(standard) && StandardParams(standard)[k.rawValue] == standard[k].value
    ensures forall s :: s in StandardParams(standard) ==>
              KeyForRawValue(s).Some? && KeyForRawValue(s).value in standard
              && standard[KeyForRawValue(s).value] == Some(StandardParams(standard)[s])
  {
    var p := StandardParams(standard);
    forall k | k in standard && standard[k].Some?
      ensures k.rawValue in p && p[k.rawValue] == standard[k].value
    {
    }
    forall s | s in p
      ensures KeyForRawValue(s).Some? && KeyForRawValue(s).value in standard
              && standard[KeyForRawValue(s).value] == Some(p[s])
    {
      var k :| k in standard && standard[k].Some? && k.rawValue == s;
    }
  }

  /** The custom attributes as parameters: non-nil values under keys not beginning with `$`. */
  function CustomParams(custom: map<string, Option<Value>>): (r: map<string, Value>)
    ensures r.Keys == set k | k in custom && custom[k].Some? && !IsReserved(k)
    ensures forall k :: k in r ==> custom[k] == Some(r[k])
  {
    map k | k in custom && custom[k].Some? && !IsReserved(k) :: custom[k].value
  }

  /** One string's entry in the standard parameters: the attribute of that raw value, if non-nil. */
  lemma StandardParamsAt(standard: map<StandardUserAttributeKey, Option<Value>>, s: string)
    ensures s in StandardParams(standard) <==>
              KeyForRawValue(s).Some? && KeyForRawValue(s).value in standard && standard[KeyForRawValue(s).value].Some?
    ensures s in StandardParams(standard) ==> StandardParams(standard)[s] == standard[KeyForRawValue(s).value].value
  {
    if s in StandardParams(standard) {
      var k :| k in standard && standard[k].Some? && k.rawValue == s;
      assert k == KeyForRawValue(s).value;
    }
  }

  /** Adding one attribute to the processed part adds its raw key (or nothing, for nil). */
  lemma StandardParamsAdd(done: map<StandardUserAttributeKey, Option<Value>>, key: StandardUserAttributeKey, v: Option<Value>)
    requires key !in done
    ensures StandardParams(done[key := v]) ==
              if v.Some? then StandardParams(done)[key.rawValue := v.value] else StandardParams(done) - {key.rawValue}
  {
    var next := done[key := v];
    var raw := key.rawValue;
    var lhs := StandardParams(next);
    var rhs := if v.Some? then StandardParams(done)[raw := v.value] else StandardParams(done) - {raw};
    forall s ensures (s in lhs <==> s in rhs) && (s in lhs ==> lhs[s] == rhs[s]) {
      StandardParamsAt(next, s);
      StandardParamsAt(done, s);
    }
    assert lhs.Keys == rhs.Keys;
  }


  /** Taking one more key out of the pending set adds its entry to the processed part. */
  lemma RemoveStep<K, V>(m: map<K, V>, pending: set<K>, key: K)
    requires key in pending && pending <= m.Keys
    ensures key !in m - pending
    ensures m - (pending - {key}) == (m - pending)[key := m[key]]
  {
  }

  /** Adding one custom attribute adds its key (or nothing, for nil or a reserved key). */
  lemma CustomParamsAdd(done: map<string, Option<Value>>, key: string, v: Option<Value>)
    requires key !in done
    ensures CustomParams(done[key := v]) ==
              if IsReserved(key) then CustomParams(done)
              else if v.Some? then CustomParams(done)[key := v.value] else CustomParams(done) - {key}
  {
    var lhs := CustomParams(done[key := v]);
    var rhs := if IsReserved(key) then CustomParams(done)
               else if v.Some? then CustomParams(done)[key := v.value] else CustomParams(done) - {key};
    assert lhs.Keys == rhs.Keys;
  }

  /**
   * The first loop of the `userAttributes` branch of `track`, over the
   * standard attributes' keys. Assigning a nil value through a dictionary
   * subscript removes the key, which is how nil values drop out.
   */
  method ShapeStandardAttributes(standardAttributes: map<StandardUserAttributeKey, Option<Value>>)
    returns (standard: map<string, Value>)
    ensures standard == StandardParams(standardAttributes)
  {
    standard := map[];
    var keys := standardAttributes.Keys;
    ghost var done: map<StandardUserAttributeKey, Option<Value>> := map[];
    while keys != {}
      invariant keys <= standardAttributes.Keys
      invariant done == standardAttributes - keys
      invariant standard == StandardParams(done)
      decreases keys
    {
      var key :| key in keys;
      var raw := key.rawValue;
      RemoveStep(standardAttributes, keys, key);
      StandardParamsAdd(done, key, standardAttributes[key]);
      done := done[key := standardAttributes[key]];
      var v := standardAttributes[key];
      if v.Some? {
        standard := standard[raw := v.value];
      } else {
        standard := standard - {raw};
      }
      keys := keys - {key};
    }
    assert done == standardAttributes;

  }

  /** The second loop of the `userAttributes` branch: custom keys, skipping reserved ones. */
  method ShapeCustomAttributes(customAttributes: map<string, Option<Value>>)
    returns (custom: map<string, Value>)
    ensures custom == CustomParams(customAttributes)
  {
    custom := map[];
    var customKeys := customAttributes.Keys;
    while customKeys != {}
      invariant customKeys <= customAttributes.Keys
      invariant custom == CustomParams(customAttributes - customKeys)
      decreases customKeys
    {
      var key :| key in customKeys;
      var value := customAttributes[key];
      RemoveStep(customAttributes, customKeys, key);
      CustomParamsAdd(customAttributes - customKeys, key, value);
      if !IsReserved(key) {
        if value.Some? {
          custom := custom[key := value.value];
        } else {
          custom := custom - {key};
        }
      }
      customKeys := customKeys - {key};
    }
    assert customAttributes - customKeys == customAttributes;
  }

  /**
   * `track(_ event: StandardEvent, _ params:)`. Only `deepLinkOpen` and the
   * push-notification events pass `params` on; every other standard event
   * drops it. The debug-manager hand-off of a deep link is not modelled.
   */
  method Track(event: StandardEvent, params: map<string, Value>) returns (call: TrackCall)
    ensures event.DeepLinkOpen? ==> call == TrackCall(StandardName(event), map["url" := VString(event.deepLinkUrl)], params)
    // a push-notification event carries "push_notification_id" iff an id is given
    ensures event.PushNotificationReceive? || event.PushNotificationOpen? ==>
              var id := if event.PushNotificationReceive? then event.receivedId else event.openedId;
              && call.name == StandardName(event) && call.customParams == params
              && ("push_notification_id" in call.params <==> id.Some?)
              && call.params == (if id.Some? then map["push_notification_id" := VString(id.value)] else map[])
    ensures event.UserAttributes? ==>
              call == TrackCall(StandardName(event), StandardParams(event.standard), CustomParams(event.custom))
    ensures event.Base? ==> call == TrackCall(CustomName(event.name), map[], event.params)
    ensures (|| event.OnboardingStart? || event.OnboardingComplete? || event.CoreSessionStart?
             || event.CoreSessionAbandon? || event.CoreSessionComplete? || event.SignUp? || event.LogIn?
             || event.LogOut?) ==> call == TrackCall(StandardName(event), map[], map[])
  {
    match event
    case DeepLinkOpen(deepLinkUrl) =>
      call := TrackCall(StandardName(event), map["url" := VString(deepLinkUrl)], params);
    case PushNotificationReceive(pushNotificationId) =>
      if pushNotificationId.Some? {
        call := TrackCall(StandardName(event), map["push_notification_id" := VString(pushNotificationId.value)], params);
      } else {
        call := TrackCall(StandardName(event), map[], params);
      }
    case PushNotificationOpen(pushNotificationId) =>
      if pushNotificationId.Some? {
        call := TrackCall(StandardName(event), map["push_notification_id" := VString(pushNotificationId.value)], params);
      } else {
        call := TrackCall(StandardName(event), map[], params);
      }
    case UserAttributes(standardAttributes, customAttributes) =>
      var standard := ShapeStandardAttributes(standardAttributes);
      var custom := ShapeCustomAttributes(customAttributes);
      call := TrackCall(StandardName(event), standard, custom);
    case Base(name, baseParams) =>
      call := TrackCall(CustomName(name), map[], baseParams);
    case _ =>
      call := TrackCall(StandardName(event), map[], map[]);
  }

  /** Tracked user attributes never carry a reserved custom key, and standard keys always appear as raw strings. */
  lemma UserAttributesShape(standard: map<StandardUserAttributeKey, Option<Value>>, custom: map<string, Option<Value>>)
    ensures forall k :: k in CustomParams(custom) ==> !IsReserved(k)
    ensures forall s :: s in StandardParams(standard) ==> KeyForRawValue(s).Some?
  {
    forall s | s in StandardParams(standard) ensures KeyForRawValue(s).Some? {
      var k :| k in standard && standard[k].Some? && k.rawValue == s;
    }
  }

  // ---------------------------------------------------------------------
  // The attribute setters
  // ---------------------------------------------------------------------

  /** Writing each (key, value) pair into the map in turn. */
  function WriteAll(m: map<StandardUserAttributeKey, Value>, writes: seq<(StandardUserAttributeKey, Value)>)
    : (r: map<StandardUserAttributeKey, Value>)
    ensures r.Keys == m.Keys + (set i | 0 <= i < |writes| :: writes[i].0)
  {
    if writes == [] then m
    else WriteAll(m, writes[..|writes| - 1])[writes[|writes| - 1].0 := writes[|writes| - 1].1]
  }

  /** The value of the last write to `k`, if any. */
  function LastWrite(writes: seq<(StandardUserAttributeKey, Value)>, k: StandardUserAttributeKey): Option<Value> {
    if writes == [] then None
    else if writes[|writes| - 1].0 == k then Some(writes[|writes| - 1].1)
    else LastWrite(writes[..|writes| - 1], k)
  }

  /** Later writes overwrite earlier ones; keys never written keep their value. */
  lemma {:induction false} LastWriteWins(m: map<StandardUserAttributeKey, Value>,
                                         writes: seq<(StandardUserAttributeKey, Value)>, k: StandardUserAttributeKey)
    ensures k in WriteAll(m, writes) <==> k in m || LastWrite(writes, k).Some?
    ensures LastWrite(writes, k).Some? ==> WriteAll(m, writes)[k] == LastWrite(writes, k).value
    ensures LastWrite(writes, k).None? && k in m ==> WriteAll(m, writes)[k] == m[k]
    ensures LastWrite(writes, k).Some? <==> exists i :: 0 <= i < |writes| && writes[i].0 == k
  {
    if writes != [] {
      var init := writes[..|writes| - 1];
      LastWriteWins(m, init, k);
      if LastWrite(writes, k).None? {
        forall i | 0 <= i < |writes| ensures writes[i].0 != k {
          if i < |init| { assert writes[i] == init[i]; }
        }
      } else if writes[|writes| - 1].0 != k {
        var i :| 0 <= i < |init| && init[i].0 == k;
        assert writes[i] == init[i];
      }
    }
  }

  /** A key no write touches keeps its value. */
  lemma {:induction false} UnwrittenKeyKept(m: map<StandardUserAttributeKey, Value>,
                                            writes: seq<(StandardUserAttributeKey, Value)>, k: StandardUserAttributeKey)
    requires k in m
    requires forall i :: 0 <= i < |writes| ==> writes[i].0 != k
    ensures k in WriteAll(m, writes) && WriteAll(m, writes)[k] == m[k]
  {
    if writes != [] {
      UnwrittenKeyKept(m, writes[..|writes| - 1], k);
    }
  }

  /** The map every setter starts from: the install date under `applicationInstalledAt`. */
  function InstallMap(appInstallDate: Value): map<StandardUserAttributeKey, Value> {
    map[ApplicationInstalledAt := appInstallDate]
  }

  /** A standard-key map handed to `.userAttributes`, where every value is present. */
  function Lift(m: map<StandardUserAttributeKey, Value>): map<StandardUserAttributeKey, Option<Value>> {
    map k | k in m :: Some(m[k])
  }

  /** A key of an `NSDictionary`: a string or some other object. */
  datatype AnyKey = StringKey(s: string) | OtherKey

  /** An `NSDictionary`, as its entries in iteration order. */
  type NSDictionary = seq<(AnyKey, Value)>

  /** The dictionary keys the setter recognises. */
  const AliasNames: set<string> := {
    "firstName", "first_name", "id", "ID", "lastName", "last_name", "email", "phone",
    "full_phone", "fullPhone", "phone_country_code", "phoneCountryCode", "fcm_token", "fcmToken",
    "apns_token", "apnsToken", "APNS", "createdAt", "created_at"
  }

  /**
   * The key table of `setUserAttributesDictionary`, as written: note that
   * "lastName" and "last_name" map to `firstName`.
   */
  function AliasKey(key: string): (r: Option<StandardUserAttributeKey>)
    ensures r.Some? <==> key in AliasNames
    // neither the last name nor the install date can be reached from the dictionary
    ensures r != Some(LastName) && r != Some(ApplicationInstalledAt)
  {
    if key == "firstName" || key == "first_name" then Some(FirstName)
    else if key == "id" || key == "ID" then Some(Id)
    else if key == "lastName" || key == "last_name" then Some(FirstName)
    else if key == "email" then Some(Email)
    else if key == "phone" then Some(Phone)
    else if key == "full_phone" || key == "fullPhone" then Some(FullPhone)
    else if key == "phone_country_code" || key == "phoneCountryCode" then Some(PhoneCountryCode)
    else if key == "fcm_token" || key == "fcmToken" then Some(FcmToken)
    else if key == "apns_token" || key == "apnsToken" || key == "APNS" then Some(ApnsToken)
    else if key == "createdAt" || key == "created_at" then Some(CreatedAt)
    else None
  }

  /** The same table with `lastName` / `last_name` sent to `lastName`, as the key names evidently intend. */
  function AliasKeyIntended(key: string): (r: Option<StandardUserAttributeKey>)
    ensures r.Some? <==> key in AliasNames
    ensures r == Some(LastName) <==> key == "lastName" || key == "last_name"
    ensures r != Some(ApplicationInstalledAt)
  {
    if key == "lastName" || key == "last_name" then Some(LastName) else AliasKey(key)
  }

  /**
   * The table as written sends "lastName" and "last_name" to `firstName`;
   * every standard key but `lastName` and `applicationInstalledAt` is
   * reached from its own raw value (that the two are never reached is
   * part of `AliasKey`'s contract).
   */
  lemma AliasTableAsWritten(k: StandardUserAttributeKey)
    ensures AliasKey("lastName") == Some(FirstName) && AliasKey("last_name") == Some(FirstName)
    ensures AliasKey("firstName") == Some(FirstName) && AliasKey("first_name") == Some(FirstName)
    ensures AliasKey("id") == Some(Id) && AliasKey("ID") == Some(Id)
    ensures k != LastName && k != ApplicationInstalledAt ==> AliasKey(k.rawValue) == Some(k)
  {
    var raw := k.rawValue;
    if raw == "id" { assert k == Id; }
    else if raw == "first_name" { assert k == FirstName; }
    else if raw == "email" { assert k == Email; }
    else if raw == "phone" { assert k == Phone; }
    else if raw == "full_phone" { assert k == FullPhone; }
    else if raw == "phone_country_code" { assert k == PhoneCountryCode; }
    else if raw == "fcm_token" { assert k == FcmToken; }
    else if raw == "apns_token" { assert k == ApnsToken; }
    else if raw == "created_at" { assert k == CreatedAt; }
  }

  /** The intended table reaches every standard key but the install date from its own raw value. */
  lemma AliasTableIntended(k: StandardUserAttributeKey)
    ensures k != ApplicationInstalledAt ==> AliasKeyIntended(k.rawValue) == Some(k)
  {
    if k != LastName && k != ApplicationInstalledAt {
      AliasTableAsWritten(k);
      assert k.rawValue != "lastName" && k.rawValue != "last_name";
    }
  }

  /** The write one dictionary entry causes under a key table: one when its key is a string the table knows, none otherwise. */
  function EntryWrites(entry: (AnyKey, Value), table: string -> Option<StandardUserAttributeKey>): seq<(StandardUserAttributeKey, Value)> {
    if entry.0.StringKey? && table(entry.0.s).Some? then [(table(entry.0.s).value, entry.1)] else []
  }

  /** The writes the dictionary setter makes, in iteration order. */
  function AliasWrites(attributes: NSDictionary, table: string -> Option<StandardUserAttributeKey>): seq<(StandardUserAttributeKey, Value)> {
    if attributes == [] then []
    else AliasWrites(attributes[..|attributes| - 1], table) + EntryWrites(attributes[|attributes| - 1], table)
  }

  /** Processing entry `i` extends the writes of the prefix by that entry's writes. */
  lemma AliasWritesStep(attributes: NSDictionary, i: nat, table: string -> Option<StandardUserAttributeKey>)
    requires i < |attributes|
    ensures AliasWrites(attributes[..i + 1], table) == AliasWrites(attributes[..i], table) + EntryWrites(attributes[i], table)
  {
    assert attributes[..i + 1][..i] == attributes[..i];
  }

  /** One more write updates the result in place. */
  lemma WriteAllSnoc(m: map<StandardUserAttributeKey, Value>, writes: seq<(StandardUserAttributeKey, Value)>,
                     more: seq<(StandardUserAttributeKey, Value)>)
    requires |more| <= 1
    ensures WriteAll(m, writes + more) == if more == [] then WriteAll(m, writes) else WriteAll(m, writes)[more[0].0 := more[0].1]
  {
    if more == [] {
      assert writes + more == writes;
    } else {
      assert (writes + more)[..|writes + more| - 1] == writes;
    }
  }

  /** Every write of the dictionary setter goes to a key the alias table produced, never to `lastName` or the install date. */
  lemma {:induction false} AliasWritesKeys(attributes: NSDictionary)
    ensures forall i :: 0 <= i < |AliasWrites(attributes, AliasKey)| ==>
              AliasWrites(attributes, AliasKey)[i].0 != LastName && AliasWrites(attributes, AliasKey)[i].0 != ApplicationInstalledAt
  {
    if attributes != [] {
      AliasWritesKeys(attributes[..|attributes| - 1]);
      var last := attributes[|attributes| - 1];
      assert AliasWrites(attributes, AliasKey) == AliasWrites(attributes[..|attributes| - 1], AliasKey) + EntryWrites(last, AliasKey);
    }
  }

  /** `attributes as? [String: Any]`: succeeds only when every key is a string. */
  function AsStringMap(attributes: NSDictionary): Option<map<string, Value>> {
    if forall i :: 0 <= i < |attributes| ==> attributes[i].0.StringKey? then Some(StringMap(attributes)) else None
  }

  function StringMap(attributes: NSDictionary): map<string, Value> {
    if attributes == [] then map[]
    else
      var last := attributes[|attributes| - 1];
      if last.0.StringKey? then StringMap(attributes[..|attributes| - 1])[last.0.s := last.1]
      else StringMap(attributes[..|attributes| - 1])
  }

  /** The `[String: Any]` cast keeps every key of the dictionary. */
  lemma {:induction false} StringMapKeys(attributes: NSDictionary)
    ensures StringMap(attributes).Keys == set i | 0 <= i < |attributes| && attributes[i].0.StringKey? :: attributes[i].0.s
  {
    if attributes != [] {
      var init := attributes[..|attributes| - 1];
      StringMapKeys(init);
      assert forall i :: 0 <= i < |init| ==> init[i] == attributes[i];
    }
  }

  /** The cast succeeds exactly when every key is a string, and then its keys are the dictionary's keys. */
  lemma AsStringMapKeys(attributes: NSDictionary)
    ensures AsStringMap(attributes).Some? <==> forall i :: 0 <= i < |attributes| ==> attributes[i].0.StringKey?
    ensures AsStringMap(attributes).Some? ==>
              AsStringMap(attributes).value.Keys == set i | 0 <= i < |attributes| :: attributes[i].0.s
  {
    StringMapKeys(attributes);
  }

  function LiftCustom(m: map<string, Value>): map<string, Option<Value>> {
    map k | k in m :: Some(m[k])
  }

  /**
   * `setUserAttributesDictionary(attributes:)`: the install date plus every
   * recognised key under its standard name; the whole dictionary is also
   * passed as custom attributes when all its keys are strings.
   */
  method SetUserAttributesDictionary(attributes: NSDictionary, appInstallDate: Value) returns (call: TrackCall)
    ensures var standard := WriteAll(InstallMap(appInstallDate), AliasWrites(attributes, AliasKey));
            var custom := if AsStringMap(attributes).Some? then LiftCustom(AsStringMap(attributes).value) else map[];
            call == TrackCall(StandardName(UserAttributes(Lift(standard), custom)),
                              StandardParams(Lift(standard)), CustomParams(custom))
  {
    var m := AliasedAttributes(attributes, appInstallDate);
    var anyAttributes := AsStringMap(attributes);
    if anyAttributes.Some? {
      call := Track(UserAttributes(Lift(m), LiftCustom(anyAttributes.value)), map[]);
    } else {
      call := Track(UserAttributes(Lift(m), map[]), map[]);
    }
  }

  /** One more dictionary entry: its key's write, when the table knows the key, lands on top of the writes before it. */
  lemma AliasedStep(m0: map<StandardUserAttributeKey, Value>, attributes: NSDictionary, i: nat)
    requires i < |attributes|
    ensures var (anyKey, value) := attributes[i];
      var before := WriteAll(m0, AliasWrites(attributes[..i], AliasKey));
      WriteAll(m0, AliasWrites(attributes[..i + 1], AliasKey))
      == if anyKey.StringKey? && AliasKey(anyKey.s).Some? then before[AliasKey(anyKey.s).value := value] else before
  {
    AliasWritesStep(attributes, i, AliasKey);
    WriteAllSnoc(m0, AliasWrites(attributes[..i], AliasKey), EntryWrites(attributes[i], AliasKey));
  }

  /** The loop of `setUserAttributes(_: NSDictionary)`: the install date, then each recognised key's write in iteration order. */
  method AliasedAttributes(attributes: NSDictionary, appInstallDate: Value) returns (m: map<StandardUserAttributeKey, Value>)
    ensures m == WriteAll(InstallMap(appInstallDate), AliasWrites(attributes, AliasKey))
  {
    m := InstallMap(appInstallDate);
    var i := 0;
    while i < |attributes|
      invariant 0 <= i <= |attributes|
      invariant m == WriteAll(InstallMap(appInstallDate), AliasWrites(attributes[..i], AliasKey))
    {
      var (anyKey, value) := attributes[i];
      AliasedStep(InstallMap(appInstallDate), attributes, i);
      if anyKey.StringKey? {
        var alias := AliasKey(anyKey.s);
        if alias.Some? {
          m := m[alias.value := value];
        }
      }
      i := i + 1;
    }
    assert attributes[..i] == attributes;
  }

  /** The dictionary setter always reports the install date and never a last name. */
  lemma DictionarySetterStandardKeys(attributes: NSDictionary, appInstallDate: Value)
    ensures var standard := WriteAll(InstallMap(appInstallDate), AliasWrites(attributes, AliasKey));
      && standard[ApplicationInstalledAt] == appInstallDate
      && LastName !in standard
  {
    AliasWritesKeys(attributes);
    var ws := AliasWrites(attributes, AliasKey);
    LastWriteWins(InstallMap(appInstallDate), ws, ApplicationInstalledAt);
    LastWriteWins(InstallMap(appInstallDate), ws, LastName);
  }

  /** A two-entry dictionary makes the writes of its first entry, then those of its second. */
  lemma TwoEntryWrites(d: NSDictionary, table: string -> Option<StandardUserAttributeKey>)
    requires |d| == 2
    ensures AliasWrites(d, table) == EntryWrites(d[0], table) + EntryWrites(d[1], table)
  {
    AliasWritesStep(d, 0, table);
    AliasWritesStep(d, 1, table);
    assert d[..0] == [] && d[..2] == d;
  }

  /** Two writes after the install date, as one map. */
  lemma TwoWrites(m: map<StandardUserAttributeKey, Value>, w1: (StandardUserAttributeKey, Value), w2: (StandardUserAttributeKey, Value))
    ensures WriteAll(m, [w1, w2]) == m[w1.0 := w1.1][w2.0 := w2.1]
  {
    WriteAllSnoc(m, [], [w1]);
    WriteAllSnoc(m, [w1], [w2]);
    assert [] + [w1] == [w1] && [w1] + [w2] == [w1, w2];
  }

  /**
   * With a first and a last name given, and "first_name" iterated first,
   * the last name overwrites the first name and no last name is reported.
   */
  lemma LastNameOverwritesFirstName(first: Value, last: Value, appInstallDate: Value)
    ensures var standard := WriteAll(InstallMap(appInstallDate), AliasWrites([(StringKey("first_name"), first), (StringKey("last_name"), last)], AliasKey));
      standard == map[ApplicationInstalledAt := appInstallDate, FirstName := last]
  {
    var d: NSDictionary := [(StringKey("first_name"), first), (StringKey("last_name"), last)];
    AliasTableAsWritten(FirstName);
    TwoEntryWrites(d, AliasKey);
    assert AliasWrites(d, AliasKey) == [(FirstName, first), (FirstName, last)];
    TwoWrites(InstallMap(appInstallDate), (FirstName, first), (FirstName, last));
  }

  /** With the intended table, the same dictionary keeps both names, each under its own key. */
  lemma IntendedKeepsBothNames(first: Value, last: Value, appInstallDate: Value)
    ensures var standard := WriteAll(InstallMap(appInstallDate), AliasWrites([(StringKey("first_name"), first), (StringKey("last_name"), last)], AliasKeyIntended));
      standard == map[ApplicationInstalledAt := appInstallDate, FirstName := first, LastName := last]
  {
    var d: NSDictionary := [(StringKey("first_name"), first), (StringKey("last_name"), last)];
    AliasTableAsWritten(FirstName);
    assert AliasKeyIntended("first_name") == Some(FirstName) && AliasKeyIntended("last_name") == Some(LastName);
    TwoEntryWrites(d, AliasKeyIntended);
    assert AliasWrites(d, AliasKeyIntended) == [(FirstName, first), (LastName, last)];
    TwoWrites(InstallMap(appInstallDate), (FirstName, first), (LastName, last));
  }

  /** `setUserAttributes(_ custom:)`: the install date as the only standard attribute. */
  method SetUserAttributes(custom: map<string, Option<Value>>, appInstallDate: Value) returns (call: TrackCall)
    ensures call.params == map["application_installed_at" := appInstallDate]
    ensures call.customParams == CustomParams(custom)
  {
    var m := InstallMap(appInstallDate);
    call := Track(UserAttributes(Lift(m), custom), map[]);
    InstallOnlyParams(appInstallDate);
  }

  lemma InstallOnlyParams(appInstallDate: Value)
    ensures StandardParams(Lift(InstallMap(appInstallDate))) == map["application_installed_at" := appInstallDate]
  {
    var l := Lift(InstallMap(appInstallDate));
    assert l == map[ApplicationInstalledAt := Some(appInstallDate)];
    var p := StandardParams(l);
    forall s | s in p ensures s == "application_installed_at" {
      var k :| k in l && l[k].Some? && k.rawValue == s;
    }
  }

  /** A standard attribute of the deprecated variadic setter. */
  datatype StandardUserAttribute =
    | IdAttribute(id: string)
    | FirstNameAttribute(firstName: string)
    | LastNameAttribute(lastName: string)
    | EmailAttribute(email: string)
    | PhoneAttribute(phone: string)
    | FullPhoneAttribute(fullPhone: string)
    | PhoneCountryCodeAttribute(countryCode: string)
    | FcmTokenAttribute(fcmToken: string)
    | ApnsTokenAttribute(apnsToken: string)
    | CreatedAtAttribute(date: int)

  /** The key each case is stored under: its own. */
  function AttributeWrite(a: StandardUserAttribute): (r: (StandardUserAttributeKey, Value))
    ensures r.0 != ApplicationInstalledAt
  {
    match a
    case IdAttribute(v) => (Id, VString(v))
    case FirstNameAttribute(v) => (FirstName, VString(v))
    case LastNameAttribute(v) => (LastName, VString(v))
    case EmailAttribute(v) => (Email, VString(v))
    case PhoneAttribute(v) => (Phone, VString(v))
    case FullPhoneAttribute(v) => (FullPhone, VString(v))
    case PhoneCountryCodeAttribute(v) => (PhoneCountryCode, VString(v))
    case FcmTokenAttribute(v) => (FcmToken, VString(v))
    case ApnsTokenAttribute(v) => (ApnsToken, VString(v))
    case CreatedAtAttribute(d) => (CreatedAt, VDate(d))
  }

  function AttributeWrites(standard: seq<StandardUserAttribute>): (r: seq<(StandardUserAttributeKey, Value)>)
    ensures |r| == |standard|
    ensures forall i :: 0 <= i < |r| ==> r[i] == AttributeWrite(standard[i])
  {
    if standard == [] then []
    else AttributeWrites(standard[..|standard| - 1]) + [AttributeWrite(standard[|standard| - 1])]
  }

  /** One more attribute adds its write at the end. */
  lemma AttributeWritesStep(standard: seq<StandardUserAttribute>, i: nat)
    requires i < |standard|
    ensures AttributeWrites(standard[..i + 1]) == AttributeWrites(standard[..i]) + [AttributeWrite(standard[i])]
  {
    assert standard[..i + 1][..i] == standard[..i];
  }

  /** The deprecated `setUserAttributes(_ standard: StandardUserAttribute..., custom:)`. */
  method SetUserAttributesVariadic(standard: seq<StandardUserAttribute>, custom: map<string, Option<Value>>,
                                   appInstallDate: Value) returns (call: TrackCall)
    ensures var m := WriteAll(InstallMap(appInstallDate), AttributeWrites(standard));
            call == TrackCall(StandardName(UserAttributes(Lift(m), custom)), StandardParams(Lift(m)), CustomParams(custom))
  {
    var m := InstallMap(appInstallDate);
    var i := 0;
    while i < |standard|
      invariant 0 <= i <= |standard|
      invariant m == WriteAll(InstallMap(appInstallDate), AttributeWrites(standard[..i]))
    {
      AttributeWritesStep(standard, i);
      WriteAllSnoc(InstallMap(appInstallDate), AttributeWrites(standard[..i]), [AttributeWrite(standard[i])]);
      var w := AttributeWrite(standard[i]);
      m := m[w.0 := w.1];
      i := i + 1;
    }
    assert standard[..i] == standard;
    call := Track(UserAttributes(Lift(m), custom), map[]);
  }

  /**
   * In the variadic setter each case lands on its own key, the last
   * occurrence of a case wins, and the install date is never overwritten.
   */
  lemma VariadicLastWins(standard: seq<StandardUserAttribute>, appInstallDate: Value, j: nat)
    requires j < |standard|
    requires forall l :: j < l < |standard| ==> AttributeWrite(standard[l]).0 != AttributeWrite(standard[j]).0
    ensures var m := WriteAll(InstallMap(appInstallDate), AttributeWrites(standard));
      && m[AttributeWrite(standard[j]).0] == AttributeWrite(standard[j]).1
      && m[ApplicationInstalledAt] == appInstallDate
  {
    var ws := AttributeWrites(standard);
    var m0 := InstallMap(appInstallDate);
    var k := ws[j].0;
    assert forall l :: j < l < |ws| ==> ws[l].0 != ws[j].0 by {
      forall l | j < l < |ws| ensures ws[l].0 != ws[j].0 {
        assert ws[l] == AttributeWrite(standard[l]);
      }
    }
    LastWriteAt(ws, j);
    LastWriteWins(m0, ws, k);
    forall i | 0 <= i < |ws| ensures ws[i].0 != ApplicationInstalledAt {
      assert ws[i] == AttributeWrite(standard[i]);
    }
    UnwrittenKeyKept(m0, ws, ApplicationInstalledAt);
  }

  /** The last write to a key is the one at the last position that writes it. */
  lemma {:induction false} LastWriteAt(writes: seq<(StandardUserAttributeKey, Value)>, j: nat)
    requires j < |writes|
    requires forall l :: j < l < |writes| ==> writes[l].0 != writes[j].0
    ensures LastWrite(writes, writes[j].0) == Some(writes[j].1)
  {
    if j < |writes| - 1 {
      var init := writes[..|writes| - 1];
      LastWriteAt(init, j);
    }
  }

  /** `track(_ name:_ params:)`: a custom event whose parameters are all custom. */
  method TrackName(name: string, params: map<string, Value>) returns (call: TrackCall)
    ensures call.name == CustomName(name) && call.params == map[] && call.customParams == params
  {
    call := Track(Base(name, params), map[]);
  }

  /** `track(name:params:)` with an `NSDictionary`: nothing is tracked unless every key is a string. */
  method TrackDictionary(name: string, params: Option<NSDictionary>) returns (call: Option<TrackCall>)
    ensures call.Some? <==> params.Some? && AsStringMap(params.value).Some?
    ensures call.Some? ==> call.value == TrackCall(CustomName(name), map[], AsStringMap(params.value).value)
  {
    if params.Some? && AsStringMap(params.value).Some? {
      var c := Track(Base(name, AsStringMap(params.value).value), map[]);
      return Some(c);
    }
    return None;
  }
}
