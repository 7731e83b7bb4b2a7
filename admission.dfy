/** The admission handler of webhook.go: the status checks at the head of `serve`, and the
    decision of `mutate` between allowing the Pod as it is, allowing it with a JSON Patch, and
    answering with an error message. */
module Admission {
  import opened Types
  import opened Matcher
  import opened JsonPatch
  import opened Vault

  datatype PatchType = JSONPatch

  /** An admission request: its UID, the Pod's namespace, and the outcome of decoding the raw
      Pod object it carries. */
  datatype AdmissionRequest = AdmissionRequest(uid: string, namespace: string, pod: Result<PodValue>)

  datatype AdmissionResponse = AdmissionResponse(
    uid: string,
    allowed: bool,
    patch: Option<seq<PatchOp>>,
    patchType: Option<PatchType>,
    message: Option<string>)

  /** Allowed, nothing to change. */
  function Allow(): AdmissionResponse {
    AdmissionResponse("", true, None, None, None)
  }

  /** Only a status message; `allowed` keeps its zero value, false. */
  function Failure(message: string): AdmissionResponse {
    AdmissionResponse("", false, None, None, Some(message))
  }

  /** mutate: decode the Pod, list the bindings, keep those of the namespace, match them to the
      Pod's service account and build the patch. `listed` is what the binding cache's List
      returned and `encodeError` what encoding the patch reported, if anything. */
  function Mutate(req: AdmissionRequest, listed: Result<seq<Binding>>, cfg: Config,
                  encodeError: Option<string>): (r: AdmissionResponse)
    ensures r.uid == ""
    ensures r.allowed <==> r.message.None?
    ensures r.patch.Some? <==> r.patchType == Some(JSONPatch)
    ensures r.patch.Some? ==> r.allowed
    ensures req.pod.Err? ==> r == Failure(req.pod.message)
    ensures req.pod.Ok? && listed.Err? ==> r == Failure(listed.message)
    ensures req.pod.Ok? && listed.Ok? && encodeError.Some? &&
            MatchedDatabases(InNamespace(listed.value, req.namespace), req.pod.value.serviceAccountName) != [] ==>
              r == Failure(encodeError.value)
    ensures req.pod.Ok? && listed.Ok? && encodeError.None? &&
            MatchedDatabases(InNamespace(listed.value, req.namespace), req.pod.value.serviceAccountName) != [] ==>
              r.allowed && r.patch == Some(PatchFor(req.pod.value, req.namespace,
                MatchedDatabases(InNamespace(listed.value, req.namespace), req.pod.value.serviceAccountName), cfg))
  {
    match req.pod
    case Err(e) => Failure(e)
    case Ok(pod) =>
      match listed
      case Err(e) => Failure(e)
      case Ok(binds) =>
        var filtered := InNamespace(binds, req.namespace);
        if |filtered| == 0 then Allow()
        else
          var databases := MatchedDatabases(filtered, pod.serviceAccountName);
          if |databases| == 0 then Allow()
          else
            match encodeError
            case Some(e) => Failure(e)
            case None =>
              AdmissionResponse("", true, Some(PatchFor(pod, req.namespace, databases, cfg)), Some(JSONPatch), None)
  }

  /** The Pod is let through unchanged exactly when it and the bindings could be read and no
      binding of its namespace names its service account. */
  lemma MutateAllowsUnchangedIff(req: AdmissionRequest, listed: Result<seq<Binding>>, cfg: Config,
                                 encodeError: Option<string>)
    ensures Mutate(req, listed, cfg, encodeError) == Allow() <==>
            req.pod.Ok? && listed.Ok? &&
            forall b :: b in listed.value && b.namespace == req.namespace ==>
                          b.serviceAccount != req.pod.value.serviceAccountName
  {
    if req.pod.Ok? && listed.Ok? {
      var binds, sa := listed.value, req.pod.value.serviceAccountName;
      var filtered := InNamespace(binds, req.namespace);
      InNamespaceCounts(binds, req.namespace);
      MatchedEmptyIff(filtered, sa);
      if forall b :: b in binds && b.namespace == req.namespace ==> b.serviceAccount != sa {
        assert MatchedDatabases(filtered, sa) == [];
      } else {
        var b :| b in binds && b.namespace == req.namespace && b.serviceAccount == sa;
        assert multiset(filtered)[b] > 0;
        var i :| 0 <= i < |filtered| && filtered[i] == b;
        assert MatchedDatabases(filtered, sa) != [];
      }
    }
  }

  /** Whenever a patch is sent it is the one createPatch builds for the matched credentials,
      and it turns the Pod into the intended Pod. */
  lemma MutatePatchApplies(req: AdmissionRequest, listed: Result<seq<Binding>>, cfg: Config,
                           encodeError: Option<string>)
    requires Mutate(req, listed, cfg, encodeError).patch.Some?
    ensures req.pod.Ok? && listed.Ok? && encodeError.None?
    ensures var databases := MatchedDatabases(InNamespace(listed.value, req.namespace), req.pod.value.serviceAccountName);
            databases != [] &&
            Mutate(req, listed, cfg, encodeError).patch.value == PatchFor(req.pod.value, req.namespace, databases, cfg) &&
            ApplyPatch(DocOf(req.pod.value), Mutate(req, listed, cfg, encodeError).patch.value) ==
              Ok(IntendedPod(req.pod.value, req.namespace, databases, cfg))
  {
    var databases := MatchedDatabases(InNamespace(listed.value, req.namespace), req.pod.value.serviceAccountName);
    PatchApplies(req.pod.value, req.namespace, databases, cfg);
  }

  /** A binding for database "foo", role "bar" and service account "sa1" in namespace "ns1",
      and a Pod of "sa1" in "ns1" with no volumes and no containers: the patch adds the volume
      array, sets the containers to the one sidecar and adds the one init sidecar. */
  lemma SingleBindingScenario(uid: string, cfg: Config, override: ContainerOverride)
    ensures var binding := Binding("ns1", "foo", "bar", "", "", "sa1", override);
            var req := AdmissionRequest(uid, "ns1", Ok(PodValue("sa1", [], [], [], [])));
            var r := Mutate(req, Ok([binding]), cfg, None);
            r.allowed && r.patchType == Some(JSONPatch) && r.patch.Some? && |r.patch.value| == 3 &&
            r.patch.value[0] == PatchOp("add", "/spec/volumes", VolumeList([VaultCredsVolume()])) &&
            r.patch.value[1].op == "replace" && r.patch.value[1].path == "/spec/containers" &&
            r.patch.value[1].value.ContainerList? && |r.patch.value[1].value.containers| == 1 &&
            r.patch.value[1].value.containers[0].name == "vault-creds-foo-bar" &&
            r.patch.value[2].op == "add" && r.patch.value[2].path == "/spec/initContainers" &&
            r.patch.value[2].value.ContainerList? && |r.patch.value[2].value.containers| == 1 &&
            r.patch.value[2].value.containers[0].name == "vault-creds-foo-bar-init" &&
            "--init" in r.patch.value[2].value.containers[0].args
  {
    var binding := Binding("ns1", "foo", "bar", "", "", "sa1", override);
    var pod := PodValue("sa1", [], [], [], []);
    var d := ToDatabase(binding);
    assert Mutate(AdmissionRequest(uid, "ns1", Ok(pod)), Ok([binding]), cfg, None) ==
           AdmissionResponse("", true, Some(PatchFor(pod, "ns1", [d], cfg)), Some(JSONPatch), None) by {
      assert [binding][..0] == [];
      assert InNamespace([binding], "ns1") == [binding];
      assert MatchedDatabases([binding], "sa1") == [d];
    }
    OneCredentialEmptyPodPatch(d, "ns1", "sa1", cfg);
    FooBarSidecarNames(d, "ns1", "sa1", [], cfg);
  }

  // ----- serve -----

  /** What the decoder made of the body: the review's request, if it has one, and the
      decoding error, if any (a failed decode may still have filled the request in). */
  datatype DecodedReview = DecodedReview(request: Option<AdmissionRequest>, error: Option<string>)

  datatype AdmissionReview = AdmissionReview(response: Option<AdmissionResponse>)

  /** What `serve` sends back: an HTTP error status, a review, or nothing because the handler
      panicked. */
  datatype ServeOutcome =
    | HttpError(status: int, message: string)
    | Reply(review: AdmissionReview)
    | Panic(reason: string)

  const StatusBadRequest := 400
  const StatusUnsupportedMediaType := 415

  /** The message answered for a review that carries no request. */
  const MissingRequestMessage := "admission review has no request"

  /** The response placed in the review, with the request's UID when there is a request. */
  function WithRequestUid(resp: AdmissionResponse, request: Option<AdmissionRequest>): AdmissionReview {
    AdmissionReview(Some(if request.Some? then resp.(uid := request.value.uid) else resp))
  }

  /** The checks on body and content type that come before decoding, or None to go on. */
  function Prologue(body: seq<bv8>, contentType: string): (r: Option<ServeOutcome>)
    ensures r.Some? <==> |body| == 0 || contentType != "application/json"
    ensures |body| == 0 ==> r == Some(HttpError(400, "empty body"))
    ensures r.Some? ==> r.value.HttpError? && (r.value.status == 415 <==> |body| != 0)
  {
    if |body| == 0 then Some(HttpError(StatusBadRequest, "empty body"))
    else if contentType != "application/json" then
      Some(HttpError(StatusUnsupportedMediaType, "invalid Content-Type, expect `application/json`"))
    else None
  }

  /** serve as written: after the prologue, a review that decodes without error but has no
      request reaches mutate, which dereferences the missing request. */
  function ServeAsWritten(body: seq<bv8>, contentType: string, decoded: DecodedReview,
                          listed: Result<seq<Binding>>, cfg: Config, encodeError: Option<string>): (r: ServeOutcome)
    ensures |body| == 0 ==> r == HttpError(400, "empty body")
    ensures |body| != 0 && contentType == "application/json" && decoded.error.None? && decoded.request.None? ==> r.Panic?
  {
    match Prologue(body, contentType)
    case Some(rejected) => rejected
    case None =>
      if decoded.error.Some? then Reply(WithRequestUid(Failure(decoded.error.value), decoded.request))
      else if decoded.request.None? then Panic("nil pointer dereference: the review has no request")
      else Reply(WithRequestUid(Mutate(decoded.request.value, listed, cfg, encodeError), decoded.request))
  }

  /** serve: 400 for an empty body before anything else, 415 for any content type other than
      "application/json", otherwise a review whose response carries the request's UID. A review
      without a request is answered with an error message instead of reaching mutate. */
  function Serve(body: seq<bv8>, contentType: string, decoded: DecodedReview,
                 listed: Result<seq<Binding>>, cfg: Config, encodeError: Option<string>): (r: ServeOutcome)
    ensures |body| == 0 ==> r == HttpError(400, "empty body")
    ensures (r.HttpError? && r.status == 415) <==> |body| != 0 && contentType != "application/json"
    ensures r.HttpError? <==> |body| == 0 || contentType != "application/json"
    ensures !r.Panic?
    ensures r.Reply? ==> r.review.response.Some?
    ensures r.Reply? && decoded.request.Some? ==> r.review.response.value.uid == decoded.request.value.uid
    ensures r.Reply? && decoded.error.Some? ==>
              !r.review.response.value.allowed && r.review.response.value.message == decoded.error
  {
    match Prologue(body, contentType)
    case Some(rejected) => rejected
    case None =>
      if decoded.error.Some? then Reply(WithRequestUid(Failure(decoded.error.value), decoded.request))
      else if decoded.request.None? then Reply(WithRequestUid(Failure(MissingRequestMessage), None))
      else Reply(WithRequestUid(Mutate(decoded.request.value, listed, cfg, encodeError), decoded.request))
  }

  /** The two differ on exactly one kind of input: a well-formed review with no request,
      which the code as written turns into a panic. */
  lemma ServeAsWrittenPanicsWithoutRequest(body: seq<bv8>, listed: Result<seq<Binding>>, cfg: Config,
                                           encodeError: Option<string>)
    requires |body| != 0
    ensures ServeAsWritten(body, "application/json", DecodedReview(None, None), listed, cfg, encodeError).Panic?
    ensures Serve(body, "application/json", DecodedReview(None, None), listed, cfg, encodeError) ==
            Reply(AdmissionReview(Some(Failure(MissingRequestMessage))))
  {
  }

  /** On every other input the corrected handler answers as the code does. */
  lemma ServeAgreesWithRequestPresent(body: seq<bv8>, contentType: string, decoded: DecodedReview,
                                      listed: Result<seq<Binding>>, cfg: Config, encodeError: Option<string>)
    requires !(|body| != 0 && contentType == "application/json" && decoded == DecodedReview(None, None))
    ensures ServeAsWritten(body, contentType, decoded, listed, cfg, encodeError) ==
            Serve(body, contentType, decoded, listed, cfg, encodeError)
  {
  }
}
