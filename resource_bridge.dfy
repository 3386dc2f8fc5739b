/** The verbs of the `bridge` resource (pkg/bridge/resource_bridge.go): what
    each one sends, which diagnostics it raises, and which state Terraform
    keeps afterwards. The outcome of the one HTTP call a verb makes is a
    parameter of the verb. */
module BridgeLifecycle {
  import opened Framework
  import opened Wire
  import opened Http
  import opened BridgeModels
  import opened BridgePayload

  /** Create refuses a pairing token that is unknown, null or empty. */
  function PairingTokenMissing(token: Value<string>): (missing: bool)
    ensures missing <==> !(token.Known? && token.value != "")
  {
    token.Unknown? || token.Null? || ValueString(token) == ""
  }

  /** Update warns that a pairing token is ignored when it is not null and
      not empty. */
  function PairingTokenIgnoredOnUpdate(token: Value<string>): (warn: bool)
    ensures warn <==> token.Known? && token.value != ""
  {
    !token.Null? && ValueString(token) != ""
  }

  /** The two checks, written differently, agree: Update warns exactly for
      the tokens Create would have accepted. */
  lemma WarningMatchesCreateCheck(token: Value<string>)
    ensures PairingTokenIgnoredOnUpdate(token) <==> !PairingTokenMissing(token)
  {
  }

  /** The state Create stores: the plan, with `id` set to `bridge_id` and
      `created_at` null. */
  function Created(plan: BridgeResourceModel): (s: BridgeResourceModel)
    ensures s.id == plan.bridgeId && s.createdAt == Null
    ensures s.(id := plan.id, createdAt := plan.createdAt) == plan
  {
    plan.(id := plan.bridgeId, createdAt := Null)
  }

  /** The state Update stores: the plan, with the four identity attributes
      carried over from the prior state. */
  function Updated(plan: BridgeResourceModel, prior: BridgeResourceModel): (s: BridgeResourceModel)
    ensures s.id == prior.id && s.bridgeId == prior.bridgeId
    ensures s.pairingToken == prior.pairingToken && s.createdAt == prior.createdAt
    ensures s.(id := plan.id, bridgeId := plan.bridgeId, pairingToken := plan.pairingToken, createdAt := plan.createdAt) == plan
  {
    plan.(id := prior.id, bridgeId := prior.bridgeId, pairingToken := prior.pairingToken, createdAt := prior.createdAt)
  }

  /** The state an import starts from: `bridge_id` and `id` are the imported
      identifier, `created_at` is null, every other attribute stays null. */
  function Imported(id: string): (s: BridgeResourceModel)
    ensures s.bridgeId == Known(id) && s.id == Known(id) && s.createdAt == Null
    ensures s.(bridgeId := Null, id := Null) == NullModel()
  {
    NullModel().(bridgeId := Known(id), id := Known(id), createdAt := Null)
  }

  /** The PATCH body is the plan's: carrying the identity over from the prior
      state changes nothing that is sent. */
  lemma UpdateSendsPlan(plan: BridgeResourceModel, prior: BridgeResourceModel)
    ensures PatchBody(Updated(plan, prior)) == PatchBody(plan)
  {
    PatchIgnoresIdentity(plan, prior.id, prior.bridgeId, prior.pairingToken, prior.createdAt);
  }

  /** What every verb keeps true of a tracked bridge: `id` is `bridge_id`
      and `created_at` is null (no verb ever fills it in). */
  predicate Consistent(s: BridgeResourceModel)
  {
    s.id == s.bridgeId && s.createdAt == Null
  }

  lemma CreatedIsConsistent(plan: BridgeResourceModel)
    ensures Consistent(Created(plan))
  {
  }

  lemma ImportedIsConsistent(id: string)
    ensures Consistent(Imported(id))
  {
  }

  lemma UpdatedKeepsConsistent(plan: BridgeResourceModel, prior: BridgeResourceModel)
    requires Consistent(prior)
    ensures Consistent(Updated(plan, prior))
    ensures Updated(plan, prior).bridgeId == prior.bridgeId
  {
  }

  class BridgeResource {
    /** The state Terraform keeps for this bridge; `None` when it keeps none. */
    var tracked: Option<BridgeResourceModel>

    predicate Valid()
      reads this
    {
      tracked.Some? ==> Consistent(tracked.value)
    }

    constructor()
      ensures Valid() && tracked == None
    {
      tracked := None;
    }

    /** POST the flat body, after checking the pairing token. `remote` and
        `local` are required by the schema. */
    method Create(plan: BridgeResourceModel, outcome: Outcome) returns (call: Option<HttpRequest>, diags: seq<Diagnostic>)
      requires Valid()
      requires plan.remote.Some? && plan.local.Some?
      modifies this
      ensures Valid()
      ensures PairingTokenMissing(plan.pairingToken) ==>
        call == None && diags == [MissingPairingToken] && tracked == old(tracked)
      ensures !PairingTokenMissing(plan.pairingToken) ==>
        call == Some(HttpRequest(Post, BridgesBase, None, Some(EncodeCreateRequest(BuildCreateRequest(plan)))))
      ensures !PairingTokenMissing(plan.pairingToken) && CallVerdict(outcome) == Proceed ==>
        diags == [] && tracked == Some(Created(plan))
      ensures !PairingTokenMissing(plan.pairingToken) && CallVerdict(outcome).Fail? ==>
        diags == [UnableToCreate(CallVerdict(outcome).detail)] && tracked == old(tracked)
    {
      if plan.pairingToken.Unknown? || plan.pairingToken.Null? || ValueString(plan.pairingToken) == "" {
        call, diags := None, [MissingPairingToken];
        return;
      }
      var payload := BuildCreateRequest(plan);
      call := Some(HttpRequest(Post, BridgesBase, None, Some(EncodeCreateRequest(payload))));
      if outcome.TransportError? {
        diags := [UnableToCreate(outcome.message)];
        return;
      }
      if IsErrorStatus(outcome.status) {
        diags := [UnableToCreate(outcome.body)];
        return;
      }
      var state := plan.(id := plan.bridgeId, createdAt := Null);
      tracked := Some(state);
      diags := [];
    }

    /** Read calls nothing and writes the prior state back unchanged. */
    method Read() returns (call: Option<HttpRequest>, diags: seq<Diagnostic>)
      requires Valid() && tracked.Some?
      modifies this
      ensures Valid()
      ensures call == None && diags == [] && tracked == old(tracked)
    {
      var state := tracked.value;
      tracked := Some(state);
      call, diags := None, [];
    }

    /** PATCH the sparse body to /bridges/<bridge_id of the prior state>. */
    method Update(plan: BridgeResourceModel, outcome: Outcome) returns (call: Option<HttpRequest>, diags: seq<Diagnostic>)
      requires Valid() && tracked.Some?
      modifies this
      ensures Valid()
      ensures call == Some(HttpRequest(Patch, BridgesBase, Some(ValueString(old(tracked).value.bridgeId)), Some(PatchBody(plan))))
      ensures var warnings := if PairingTokenIgnoredOnUpdate(plan.pairingToken) then [PairingTokenIgnored] else [];
        && (CallVerdict(outcome) == Proceed ==>
              diags == warnings && !HasError(diags) && tracked == Some(Updated(plan, old(tracked).value)))
        && (CallVerdict(outcome).Fail? ==>
              diags == warnings + [UnableToUpdate(CallVerdict(outcome).detail)] && tracked == old(tracked))
    {
      var state := tracked.value;
      diags := [];
      if !plan.pairingToken.Null? && ValueString(plan.pairingToken) != "" {
        diags := diags + [PairingTokenIgnored];
      }
      var next := plan.(id := state.id, bridgeId := state.bridgeId, pairingToken := state.pairingToken,
                        createdAt := state.createdAt);
      UpdateSendsPlan(plan, state);
      UpdatedKeepsConsistent(plan, state);
      call := Some(HttpRequest(Patch, BridgesBase, Some(ValueString(next.bridgeId)), Some(PatchBody(next))));
      if outcome.TransportError? {
        diags := diags + [UnableToUpdate(outcome.message)];
        return;
      }
      if IsErrorStatus(outcome.status) {
        diags := diags + [UnableToUpdate(outcome.body)];
        return;
      }
      tracked := Some(next);
    }

    /** DELETE /bridges/<bridge_id>. Every error status fails, 404 included;
        on success Terraform drops the state. */
    method Delete(outcome: Outcome) returns (call: Option<HttpRequest>, diags: seq<Diagnostic>)
      requires Valid() && tracked.Some?
      modifies this
      ensures Valid()
      ensures call == Some(HttpRequest(HttpMethod.Delete, BridgesBase, Some(ValueString(old(tracked).value.bridgeId)), None))
      ensures CallVerdict(outcome) == Proceed ==> diags == [] && tracked == None
      ensures CallVerdict(outcome).Fail? ==> diags == [UnableToDelete(CallVerdict(outcome).detail)] && tracked == old(tracked)
    {
      var state := tracked.value;
      call := Some(HttpRequest(HttpMethod.Delete, BridgesBase, Some(ValueString(state.bridgeId)), None));
      if outcome.TransportError? {
        diags := [UnableToDelete(outcome.message)];
        return;
      }
      if IsErrorStatus(outcome.status) {
        diags := [UnableToDelete(outcome.body)];
        return;
      }
      diags := [];
      tracked := None;
    }

    /** Import: pass the identifier through to `bridge_id`, then set `id` and
        `created_at` on the otherwise empty state. */
    method ImportState(id: string) returns (diags: seq<Diagnostic>)
      modifies this
      ensures Valid()
      ensures diags == [] && tracked == Some(Imported(id))
    {
      var state := NullModel();
      state := state.(bridgeId := Known(id));
      state := state.(id := Known(id));
      state := state.(createdAt := Null);
      tracked := Some(state);
      diags := [];
    }
  }

  /** A 404 on Delete is a failure: the bridge stays tracked. */
  lemma DeleteNotFoundFails(body: string)
    ensures CallVerdict(Response(StatusNotFound, body)) == Fail(body)
  {
  }
}
