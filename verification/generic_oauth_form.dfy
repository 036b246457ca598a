/**
 * The generic OAuth / OpenID Connect identity-provider wizard. Three steps accumulate a
 * provider configuration (`issuerDetails`): step 0 asks for the issuer and fetches its
 * discovery document (at the address of OpenID Connect Discovery 1.0, section 4.1, but
 * without removing a trailing "/" from the issuer first), step 1 merges the
 * provider details the user entered, step 2 replaces the identity field mappings and
 * submits the configuration. Form validation, the discovery response and the outcome of
 * the save request are parameters; the wizard's state cells are the fields of
 * `GenericOAuthForm`.
 */
module GenericOAuth {
  import opened Wrappers
  import opened JsRuntime

  /** The identity attributes whose source fields are mapped, in display order. */
  const SourceMappingKeys: seq<string> := ["uid", "email", "username", "avatar"]

  /** The path appended to the issuer to locate its discovery document. */
  const WellKnownPath: string := "/.well-known/openid-configuration"

  /** The value of `AuthType.Generic` (the enum's module is not part of this model). */
  const GenericAuthType: string := "GENERIC"

  /** The keys of the configuration seeded from a discovery document. */
  const SeededKeys: set<string> := {
    "authType", "source", "sourceName", "issuer", "authorizationEndpoint", "tokenEndpoint",
    "userInfoEndpoint", "jwksUri", "scope", "sourceMappings"
  }

  /** The part of an OpenID provider's discovery document the wizard reads. */
  datatype OpenIdProvider = OpenIdProvider(
    issuer: string,
    authorizationEndpoint: string,
    tokenEndpoint: string,
    userinfoEndpoint: string,
    jwksUri: Option<string>,
    scopesSupported: seq<string>)

  /** How the discovery request ends: the promise rejects, or a response arrives. */
  datatype DiscoveryOutcome = Rejected | Responded(status: int, data: OpenIdProvider)

  /**
   * How `axios.get` settles for an HTTP response under axios's default status
   * validation: the promise resolves for a 2xx status and rejects for any other.
   */
  function AxiosOutcome(status: int, data: OpenIdProvider): (outcome: DiscoveryOutcome)
    ensures outcome.Responded? <==> 200 <= status < 300
    ensures outcome.Responded? ==> outcome.status == status && outcome.data == data
  {
    if 200 <= status < 300 then Responded(status, data) else Rejected
  }

  /**
   * Under the default status validation, every response that reaches the continuation
   * has a status below 400, so the wizard's status test never takes its early return.
   */
  lemma StatusGuardUnreachable(status: int, data: OpenIdProvider)
    ensures var outcome := AxiosOutcome(status, data);
      outcome.Responded? ==> outcome.status < 400
    ensures status >= 400 ==> AxiosOutcome(status, data) == Rejected
  {
  }

  /**
   * How the save request ends: the response validates, it does not, or the request
   * (or the validation of its response) throws with a message.
   */
  datatype SaveOutcome = Accepted | NotAccepted | Failed(message: string)

  /** The request whose continuation is still pending. */
  datatype Awaiting = Idle | Discovery | Submission

  /** The effects the wizard has on the world outside its own state, in order. */
  datatype Effect =
    | DiscoveryRequest(url: string)
    | SaveRequest(config: Props)
    | SuccessMessage
    | ErrorMessage(text: string)
    | OnSave
    | OnCancel

  /** The address of the issuer's discovery document. */
  function DiscoveryUrl(issuer: string): (url: string)
    ensures |url| == |issuer| + |WellKnownPath|
    ensures url[..|issuer|] == issuer
    ensures url[|issuer|..] == WellKnownPath
  {
    issuer + WellKnownPath
  }

  /**
   * The issuer is not trimmed: an issuer ending in "/" gives an address with "//" before
   * the well-known path, where OpenID Connect Discovery 1.0, section 4.1, removes the
   * trailing "/" first.
   */
  lemma DiscoveryUrlKeepsTrailingSlash(issuer: string)
    requires issuer != [] && issuer[|issuer| - 1] == '/'
    ensures DiscoveryUrl(issuer)[|issuer| - 1..|issuer| + 1] == "//"
  {
    var url := DiscoveryUrl(issuer);
    assert url[|issuer| - 1] == issuer[|issuer| - 1];
    assert url[|issuer|] == WellKnownPath[0];
  }

  /** The issuer as the template literal of the request interpolates it. */
  function IssuerText(values: Props): string
  {
    TemplateText(Get(Obj(values), "issuer"))
  }

  /** `keys.map(k => ({[k]: k}))`. */
  function IdentityMappings(keys: seq<string>): seq<JsValue>
  {
    if keys == [] then [] else [Obj(map[keys[0] := Str(keys[0])])] + IdentityMappings(keys[1..])
  }

  /** The mapped list has one single-key object `{k: k}` per key, in the order of the keys. */
  lemma {:induction false} IdentityMappingsShape(keys: seq<string>)
    ensures |IdentityMappings(keys)| == |keys|
    ensures forall i :: 0 <= i < |keys| ==>
      IdentityMappings(keys)[i] == Obj(map[keys[i] := Str(keys[i])])
  {
    if keys != [] {
      IdentityMappingsShape(keys[1..]);
    }
  }

  /**
   * `Object.assign({}, ...entries)` over objects: later entries win on shared keys. The
   * wizard performs no such merge; this only reads a list of single-key objects as the
   * one mapping it spells out.
   */
  function MergeEntries(entries: seq<JsValue>): Props
  {
    if entries == [] then map[]
    else
      var first := if entries[0].Obj? then entries[0].props else map[];
      first + MergeEntries(entries[1..])
  }

  /** The configuration seeded from a discovery document. */
  function Seed(data: OpenIdProvider): Props
  {
    map[
      "authType" := Str(GenericAuthType),
      "source" := Str(""),
      "sourceName" := Str(""),
      "issuer" := Str(data.issuer),
      "authorizationEndpoint" := Str(data.authorizationEndpoint),
      "tokenEndpoint" := Str(data.tokenEndpoint),
      "userInfoEndpoint" := Str(data.userinfoEndpoint),
      "jwksUri" := if data.jwksUri.Some? then Str(data.jwksUri.value) else Undefined,
      "scope" := Str(Join(data.scopesSupported, ',')),
      "sourceMappings" := Arr(IdentityMappings(SourceMappingKeys))
    ]
  }

  /**
   * The seed is a generic-provider configuration with an empty source and source name,
   * whose endpoints are the ones the discovery document names (the JWKS address is
   * undefined when the document has none).
   */
  lemma SeedFields(data: OpenIdProvider)
    ensures var c := Seed(data);
      && c.Keys == SeededKeys
      && c["authType"] == Str(GenericAuthType)
      && c["source"] == Str("") && c["sourceName"] == Str("")
      && c["issuer"] == Str(data.issuer)
      && c["authorizationEndpoint"] == Str(data.authorizationEndpoint)
      && c["tokenEndpoint"] == Str(data.tokenEndpoint)
      && c["userInfoEndpoint"] == Str(data.userinfoEndpoint)
      && c["jwksUri"] == (if data.jwksUri.Some? then Str(data.jwksUri.value) else Undefined)
      && (data.scopesSupported == [] ==> c["scope"] == Str(""))
      && (|data.scopesSupported| == 1 ==> c["scope"] == Str(data.scopesSupported[0]))
  {
  }

  /**
   * The seeded scope keeps every supported scope, in order: splitting it at the commas
   * gives the provider's list back (for a non-empty list of comma-free scope names).
   */
  lemma SeedScopeRoundTrip(data: OpenIdProvider)
    requires data.scopesSupported != []
    requires forall i :: 0 <= i < |data.scopesSupported| ==> ',' !in data.scopesSupported[i]
    ensures Seed(data)["scope"].Str?
    ensures Split(Seed(data)["scope"].s, ',') == data.scopesSupported
  {
    SplitJoin(data.scopesSupported, ',');
  }

  /**
   * Merging single-key identity objects gives the map sending each key to itself. The
   * wizard itself never merges the seeded list (step 2 replaces it wholesale); this says
   * which mapping the list denotes, for comparison with the single object step 2 stores.
   */
  lemma {:induction false} MergeIdentityMappings(keys: seq<string>)
    ensures MergeEntries(IdentityMappings(keys)) == map k | k in keys :: Str(k)
  {
    if keys != [] {
      var tail := map k | k in keys[1..] :: Str(k);
      calc {
        MergeEntries(IdentityMappings(keys));
        { assert IdentityMappings(keys)[1..] == IdentityMappings(keys[1..]); }
        map[keys[0] := Str(keys[0])] + MergeEntries(IdentityMappings(keys[1..]));
        { MergeIdentityMappings(keys[1..]); }
        map[keys[0] := Str(keys[0])] + tail;
        { IdentityMapCons(keys); }
        map k | k in keys :: Str(k);
      }
    }
  }

  /** The identity map of a list of keys is its first key's entry plus that of the rest. */
  lemma IdentityMapCons(keys: seq<string>)
    requires keys != []
    ensures map[keys[0] := Str(keys[0])] + (map k | k in keys[1..] :: Str(k)) == map k | k in keys :: Str(k)
  {
  }

  /**
   * The seeded `sourceMappings` is an array of four single-key objects
   * `{uid: "uid"}`, `{email: "email"}`, `{username: "username"}`, `{avatar: "avatar"}`,
   * in that order, not one object. Merged (which the wizard never does), they would be the
   * identity mapping of the four keys.
   */
  lemma SeedSourceMappings(data: OpenIdProvider)
    ensures Seed(data)["sourceMappings"].Arr?
    ensures var entries := Seed(data)["sourceMappings"].items;
      && |entries| == 4
      && (forall i :: 0 <= i < 4 ==> entries[i] == Obj(map[SourceMappingKeys[i] := Str(SourceMappingKeys[i])]))
      && MergeEntries(entries) == map k | k in SourceMappingKeys :: Str(k)
  {
    IdentityMappingsShape(SourceMappingKeys);
    MergeIdentityMappings(SourceMappingKeys);
  }

  /** `{...details}`: spreading the not-yet-set (undefined) details adds nothing. */
  function Spread(details: Option<Props>): Props
  {
    if details.Some? then details.value else map[]
  }

  /**
   * `{...details, ...values}`: every entered value overrides, every other field of the
   * accumulated details is kept.
   */
  function MergeDetails(details: Option<Props>, values: Props): (r: Props)
    ensures r.Keys == Spread(details).Keys + values.Keys
    ensures forall k :: k in values ==> r[k] == values[k]
    ensures forall k :: k in Spread(details) && k !in values ==> r[k] == Spread(details)[k]
  {
    Spread(details) + values
  }

  /**
   * `{...details, sourceMappings: {...values}}`: the mappings become one object holding
   * the entered values, and every other field is kept.
   */
  function WithSourceMappings(details: Option<Props>, values: Props): (r: Props)
    ensures r.Keys == Spread(details).Keys + {"sourceMappings"}
    ensures r["sourceMappings"] == Obj(values)
    ensures forall k :: k in Spread(details) && k != "sourceMappings" ==> r[k] == Spread(details)[k]
  {
    Spread(details)["sourceMappings" := Obj(values)]
  }

  /** `{...values, enableRegister: true}`: the record sent to the save endpoint. */
  function SubmissionConfig(values: Props): (c: Props)
    ensures c.Keys == values.Keys + {"enableRegister"}
    ensures c["enableRegister"] == Bool(true)
    ensures forall k :: k in values && k != "enableRegister" ==> c[k] == values[k]
  {
    values["enableRegister" := Bool(true)]
  }

  /**
   * What step 1 merges in reaches the submitted record: every entered detail except
   * `sourceMappings` and `enableRegister` is submitted as entered, every earlier field
   * that was not re-entered is submitted as it was, and the mappings are the ones
   * entered at step 2.
   */
  lemma SubmissionKeepsDetails(earlier: Option<Props>, details: Props, mappings: Props)
    ensures var submitted := SubmissionConfig(WithSourceMappings(Some(MergeDetails(earlier, details)), mappings));
      && submitted.Keys == Spread(earlier).Keys + details.Keys + {"sourceMappings", "enableRegister"}
      && submitted["sourceMappings"] == Obj(mappings)
      && submitted["enableRegister"] == Bool(true)
      && (forall k :: k in details && k != "sourceMappings" && k != "enableRegister" ==>
            submitted[k] == details[k])
      && (forall k :: k in Spread(earlier) && k !in details && k != "sourceMappings" && k != "enableRegister" ==>
            submitted[k] == Spread(earlier)[k])
  {
  }

  /** Every configuration submitted so far was sent with `enableRegister: true`. */
  ghost predicate SubmissionsEnableRegister(effects: seq<Effect>)
  {
    forall i :: 0 <= i < |effects| && effects[i].SaveRequest? ==>
      "enableRegister" in effects[i].config && effects[i].config["enableRegister"] == Bool(true)
  }

  /**
   * The wizard's state. `validated` parameters stand for the outcome of `validateFields()`:
   * `None` when validation fails, otherwise the form's values.
   */
  class GenericOAuthForm {
    var currentStep: int
    var issuerDetails: Option<Props>
    var saveLoading: bool
    /** The form store, as `setFieldsValue` and `resetFields` leave it. */
    var formFields: Props
    /** The request whose continuation has not run yet. */
    var awaiting: Awaiting
    var effects: seq<Effect>

    ghost predicate Valid()
      reads this
    {
      && 0 <= currentStep <= 2
      && (awaiting != Idle ==> saveLoading)
      && (awaiting == Discovery ==> currentStep == 0)
      && SubmissionsEnableRegister(effects)
    }

    constructor ()
      ensures Valid()
      ensures currentStep == 0 && issuerDetails == None && !saveLoading
      ensures formFields == map[] && awaiting == Idle && effects == []
    {
      currentStep := 0;
      issuerDetails := None;
      saveLoading := false;
      formFields := map[];
      awaiting := Idle;
      effects := [];
    }

    /**
     * `handleStep1Save`, up to the discovery request: with a valid form, show the
     * loading state and request the issuer's discovery document.
     */
    method Step1Save(validated: Option<Props>)
      requires Valid() && awaiting == Idle && currentStep == 0
      modifies this
      ensures Valid()
      ensures validated.None? ==> unchanged(this)
      ensures validated.Some? ==>
        && saveLoading && awaiting == Discovery
        && effects == old(effects) + [DiscoveryRequest(DiscoveryUrl(IssuerText(validated.value)))]
      ensures currentStep == old(currentStep) && issuerDetails == old(issuerDetails)
      ensures formFields == old(formFields)
    {
      if validated.None? {
        return;
      }
      saveLoading := true;
      effects := effects + [DiscoveryRequest(DiscoveryUrl(IssuerText(validated.value)))];
      awaiting := Discovery;
    }

    /**
     * The rest of `handleStep1Save`, once the discovery request settles. A rejected request
     * ends the continuation before the loading state is cleared. A response with status
     * 400 or above only clears the loading state. Any other response seeds the details
     * and the form from the document and moves to step 1.
     */
    method DiscoverySettled(outcome: DiscoveryOutcome)
      requires Valid() && awaiting == Discovery
      modifies this
      ensures Valid() && awaiting == Idle && effects == old(effects)
      ensures outcome.Rejected? ==> saveLoading
      ensures outcome.Responded? ==> !saveLoading
      ensures outcome.Responded? && outcome.status < 400 ==>
        && issuerDetails == Some(Seed(outcome.data))
        && formFields == old(formFields) + Seed(outcome.data)
        && currentStep == old(currentStep) + 1 == 1
      ensures (outcome.Rejected? || outcome.status >= 400) ==>
        && issuerDetails == old(issuerDetails)
        && formFields == old(formFields)
        && currentStep == old(currentStep) == 0
    {
      awaiting := Idle;
      if outcome.Rejected? {
        return;
      }
      saveLoading := false;
      if outcome.status >= 400 {
        return;
      }
      var seed := Seed(outcome.data);
      issuerDetails := Some(seed);
      formFields := formFields + seed;
      currentStep := currentStep + 1;
    }

    /**
     * The evidently intended continuation of `handleStep1Save`: as `DiscoverySettled`,
     * but with the loading state cleared however the request ends (the `finally` that
     * `saveAuthProvider` has), so a failed discovery can be corrected and retried.
     */
    method DiscoverySettledFinally(outcome: DiscoveryOutcome)
      requires Valid() && awaiting == Discovery
      modifies this
      ensures Valid() && awaiting == Idle && effects == old(effects)
      ensures !saveLoading
      ensures outcome.Responded? && outcome.status < 400 ==>
        && issuerDetails == Some(Seed(outcome.data))
        && formFields == old(formFields) + Seed(outcome.data)
        && currentStep == old(currentStep) + 1 == 1
      ensures (outcome.Rejected? || outcome.status >= 400) ==>
        && issuerDetails == old(issuerDetails)
        && formFields == old(formFields)
        && currentStep == old(currentStep) == 0
    {
      DiscoverySettled(outcome);
      saveLoading := false;
    }

    /**
     * `handleStep2Save`: with a valid form, merge the entered provider details into the
     * accumulated ones and move to step 2.
     */
    method Step2Save(validated: Option<Props>)
      requires Valid() && awaiting == Idle && currentStep == 1
      modifies this
      ensures Valid()
      ensures validated.None? ==> unchanged(this)
      ensures validated.Some? ==>
        && issuerDetails == Some(MergeDetails(old(issuerDetails), validated.value))
        && currentStep == old(currentStep) + 1
      ensures Spread(old(issuerDetails)).Keys <= Spread(issuerDetails).Keys
      ensures saveLoading == old(saveLoading) && awaiting == old(awaiting)
      ensures formFields == old(formFields) && effects == old(effects)
    {
      if validated.None? {
        return;
      }
      issuerDetails := Some(MergeDetails(issuerDetails, validated.value));
      currentStep := currentStep + 1;
    }

    /**
     * `saveAuthProvider`, up to the save request: show the loading state and send the
     * configuration with `enableRegister: true` added.
     */
    method SaveAuthProvider(values: Props)
      requires Valid() && awaiting == Idle
      modifies this
      ensures Valid()
      ensures saveLoading && awaiting == Submission
      ensures effects == old(effects) + [SaveRequest(SubmissionConfig(values))]
      ensures currentStep == old(currentStep) && issuerDetails == old(issuerDetails)
      ensures formFields == old(formFields)
    {
      saveLoading := true;
      effects := effects + [SaveRequest(SubmissionConfig(values))];
      awaiting := Submission;
    }

    /**
     * The rest of `saveAuthProvider`, once the save request settles: a response that
     * validates shows the success message and calls `onSave`; a failure shows its
     * message; whatever the outcome, the loading state is cleared. The step and the
     * details are left as they are, so a failed save can be retried.
     */
    method SaveSettled(outcome: SaveOutcome)
      requires Valid() && awaiting == Submission
      modifies this
      ensures Valid()
      ensures !saveLoading && awaiting == Idle
      ensures effects == old(effects) + match outcome
        case Accepted => [SuccessMessage, OnSave]
        case NotAccepted => []
        case Failed(message) => [ErrorMessage(message)]
      ensures OnSave in effects[|old(effects)|..] <==> outcome.Accepted?
      ensures currentStep == old(currentStep) && issuerDetails == old(issuerDetails)
      ensures formFields == old(formFields)
    {
      match outcome {
        case Accepted =>
          effects := effects + [SuccessMessage, OnSave];
        case NotAccepted =>
        case Failed(message) =>
          effects := effects + [ErrorMessage(message)];
      }
      saveLoading := false;
      awaiting := Idle;
    }

    /**
     * `handleStep3Save`: with a valid form, replace the mappings with the entered ones,
     * submit the result and keep it as the details. The step does not change.
     */
    method Step3Save(validated: Option<Props>)
      requires Valid() && awaiting == Idle && currentStep == 2
      modifies this
      ensures Valid()
      ensures validated.None? ==> unchanged(this)
      ensures validated.Some? ==>
        var updated := WithSourceMappings(old(issuerDetails), validated.value);
        && issuerDetails == Some(updated)
        && saveLoading && awaiting == Submission
        && effects == old(effects) + [SaveRequest(SubmissionConfig(updated))]
      ensures Spread(old(issuerDetails)).Keys <= Spread(issuerDetails).Keys
      ensures currentStep == old(currentStep) && formFields == old(formFields)
    {
      if validated.None? {
        return;
      }
      var updated := WithSourceMappings(issuerDetails, validated.value);
      SaveAuthProvider(updated);
      issuerDetails := Some(updated);
    }

    /**
     * What `handleSave` does to the state: nothing when validation fails; otherwise the
     * step-0 handler's discovery request, the step-1 handler's merge and advance, or the
     * step-2 handler's submission.
     */
    twostate predicate SaveHandled(validated: Option<Props>)
      reads this
    {
      && formFields == old(formFields)
      && (validated.None? ==>
        && currentStep == old(currentStep) && issuerDetails == old(issuerDetails)
        && saveLoading == old(saveLoading) && awaiting == old(awaiting)
        && effects == old(effects))
      && (old(currentStep) == 0 && validated.Some? ==>
        && awaiting == Discovery && saveLoading && currentStep == 0
        && issuerDetails == old(issuerDetails)
        && effects == old(effects) + [DiscoveryRequest(DiscoveryUrl(IssuerText(validated.value)))])
      && (old(currentStep) == 1 && validated.Some? ==>
        && awaiting == old(awaiting) && saveLoading == old(saveLoading) && currentStep == 2
        && issuerDetails == Some(MergeDetails(old(issuerDetails), validated.value))
        && effects == old(effects))
      && (old(currentStep) == 2 && validated.Some? ==>
        var updated := WithSourceMappings(old(issuerDetails), validated.value);
        && awaiting == Submission && saveLoading && currentStep == 2
        && issuerDetails == Some(updated)
        && effects == old(effects) + [SaveRequest(SubmissionConfig(updated))])
    }

    /** `handleSave`: run the handler of the current step. */
    method HandleSave(validated: Option<Props>)
      requires Valid() && awaiting == Idle
      modifies this
      ensures Valid()
      ensures SaveHandled(validated)
    {
      if currentStep == 0 {
        Step1Save(validated);
      } else if currentStep == 1 {
        Step2Save(validated);
      } else if currentStep == 2 {
        Step3Save(validated);
      }
    }

    /**
     * The Save button: it is rendered with `loading={saveLoading}`, and a loading button
     * ignores clicks; otherwise a click runs `handleSave`.
     */
    method PressSave(validated: Option<Props>)
      requires Valid()
      modifies this
      ensures Valid()
      ensures old(saveLoading) ==> unchanged(this)
      ensures !old(saveLoading) ==> SaveHandled(validated)
    {
      if !saveLoading {
        HandleSave(validated);
      }
    }

    /**
     * `handleCancel`: at step 0, call `onCancel` and reset the form, keeping the details;
     * at a later step, go back one step.
     */
    method HandleCancel()
      requires Valid()
      modifies this
      ensures Valid()
      ensures old(currentStep) == 0 ==>
        && currentStep == 0 && formFields == map[]
        && effects == old(effects) + [OnCancel]
      ensures old(currentStep) > 0 ==>
        && currentStep == old(currentStep) - 1
        && formFields == old(formFields) && effects == old(effects)
      ensures issuerDetails == old(issuerDetails)
      ensures saveLoading == old(saveLoading) && awaiting == old(awaiting)
    {
      if currentStep == 0 {
        effects := effects + [OnCancel];
        formFields := map[];
        return;
      }
      currentStep := currentStep - 1;
    }
  }

  /**
   * A session that discovers a provider, steps back from step 1 and then cancels at
   * step 0: the wizard is back at step 0, `onCancel` was called, and the discovered
   * configuration is still held.
   */
  method CancelKeepsDiscoveredDetails(issuer: string, status: int, data: OpenIdProvider)
    returns (details: Option<Props>, step: int, effects: seq<Effect>)
    requires status < 400
    ensures details == Some(Seed(data))
    ensures step == 0
    ensures effects == [DiscoveryRequest(issuer + WellKnownPath), OnCancel]
  {
    var form := new GenericOAuthForm();
    form.PressSave(Some(map["issuer" := Str(issuer)]));
    form.DiscoverySettled(Responded(status, data));
    form.HandleCancel();
    form.HandleCancel();
    details, step, effects := form.issuerDetails, form.currentStep, form.effects;
  }

  /**
   * A complete session: discovery, provider details, mappings, and a save whose response
   * validates. The wizard stays on step 2; the submitted record is the seed, merged with
   * the details, with the mappings replaced and `enableRegister: true` added (so
   * `SubmissionKeepsDetails` describes it); `onSave` is called last.
   */
  method CompleteSession(issuer: string, data: OpenIdProvider, details: Props, mappings: Props)
    returns (step: int, loading: bool, submitted: Props, effects: seq<Effect>)
    ensures step == 2 && !loading
    ensures submitted == SubmissionConfig(WithSourceMappings(Some(MergeDetails(Some(Seed(data)), details)), mappings))
    ensures effects == [
      DiscoveryRequest(DiscoveryUrl(issuer)), SaveRequest(submitted), SuccessMessage, OnSave]
  {
    var form := new GenericOAuthForm();
    var request := DiscoveryRequest(DiscoveryUrl(issuer));
    form.PressSave(Some(map["issuer" := Str(issuer)]));
    assert form.effects == [request] && form.currentStep == 0 && form.awaiting == Discovery;
    form.DiscoverySettled(Responded(200, data));
    assert form.effects == [request] && form.currentStep == 1 && !form.saveLoading;
    form.PressSave(Some(details));
    var merged := form.issuerDetails;
    assert form.effects == [request] && form.currentStep == 2 && !form.saveLoading;
    form.PressSave(Some(mappings));
    submitted := SubmissionConfig(WithSourceMappings(merged, mappings));
    assert form.effects == [request, SaveRequest(submitted)] && form.awaiting == Submission;
    form.SaveSettled(Accepted);
    step, loading, effects := form.currentStep, form.saveLoading, form.effects;
  }

  /**
   * A discovery request that rejects never clears the loading state, so the Save button
   * ignores every later press: the wizard stays on step 0 with no further request.
   */
  method RejectedDiscoveryBlocksSave(issuer: string, retry: Props)
    returns (step: int, loading: bool, effects: seq<Effect>)
    ensures step == 0 && loading
    ensures effects == [DiscoveryRequest(DiscoveryUrl(issuer))]
  {
    var form := new GenericOAuthForm();
    form.PressSave(Some(map["issuer" := Str(issuer)]));
    form.DiscoverySettled(Rejected);
    form.PressSave(Some(retry));
    step, loading, effects := form.currentStep, form.saveLoading, form.effects;
  }

  /**
   * An HTTP error from the discovery endpoint (a 404 for a mistyped issuer, say) rejects
   * the request under axios's default status validation, so the status test is never
   * reached: the loading state stays set and a corrected issuer can never be submitted.
   */
  method HttpErrorBlocksSave(issuer: string, status: int, data: OpenIdProvider, retry: string)
    returns (step: int, loading: bool, effects: seq<Effect>)
    requires status >= 400
    ensures step == 0 && loading
    ensures effects == [DiscoveryRequest(DiscoveryUrl(issuer))]
  {
    StatusGuardUnreachable(status, data);
    var form := new GenericOAuthForm();
    form.PressSave(Some(map["issuer" := Str(issuer)]));
    form.DiscoverySettled(AxiosOutcome(status, data));
    form.PressSave(Some(map["issuer" := Str(retry)]));
    step, loading, effects := form.currentStep, form.saveLoading, form.effects;
  }

  /**
   * With the intended continuation, the same HTTP error leaves the Save button usable:
   * a press with a corrected issuer requests that issuer's discovery document.
   */
  method FailedDiscoveryAllowsRetry(issuer: string, status: int, data: OpenIdProvider, retry: string)
    returns (step: int, loading: bool, effects: seq<Effect>)
    requires status >= 400
    ensures step == 0 && loading
    ensures effects == [DiscoveryRequest(DiscoveryUrl(issuer)), DiscoveryRequest(DiscoveryUrl(retry))]
  {
    StatusGuardUnreachable(status, data);
    var form := new GenericOAuthForm();
    form.PressSave(Some(map["issuer" := Str(issuer)]));
    form.DiscoverySettledFinally(AxiosOutcome(status, data));
    form.PressSave(Some(map["issuer" := Str(retry)]));
    step, loading, effects := form.currentStep, form.saveLoading, form.effects;
  }
}
