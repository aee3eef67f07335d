/** The "Building" phase of the FalconConfig reconciler
    (controllers/falcon/phase_building.go): materialise the builder's
    registry credential, resolve the image stream, refresh the Falcon
    container image, and record the outcome on the resource's status.

    Every call the phase makes to the outside world (listing secrets,
    writing the credential file, reading the image stream, refreshing the
    image, writing the status) is answered by an `Environment`, and the
    reconciler keeps a ghost record of the calls it made, in order, and of
    the files it wrote. */
module PhaseBuilding {
  import opened Wrappers
  import opened Dockercfg

  /** The phase this handler serves and the two phases it writes. */
  datatype Phase = PhaseBuilding | PhaseConfiguring | PhaseDone

  /** `FalconConfig.Status`, reduced to the two fields the phase writes. */
  datatype FalconConfigStatus = FalconConfigStatus(phase: Phase, errorMessage: string)

  /** `ctrl.Result`: whether, and after how long, to reconcile again. */
  datatype CtrlResult = CtrlResult(requeue: bool, requeueAfter: nat)

  /** `ctrl.Result{}`: no requeue. */
  const NoRequeue := CtrlResult(false, 0)

  /** The image stream of the namespace, reduced to the repository the
      refreshed image is pushed to. */
  datatype ImageStream = ImageStream(dockerImageRepository: string)

  /** The answers the outside world gives to one reconciliation pass. */
  datatype Environment = Environment(
    secrets: Result<seq<Secret>>,      // Client.List of the namespace's secrets
    writeFile: Option<Error>,          // ioutil.WriteFile of the credential
    imageStream: Result<ImageStream>,  // r.imageStream
    refresh: Option<Error>,            // ImageRefresher.Refresh
    statusUpdate: Option<Error>)       // Client.Status().Update

  /** One call to the outside world, with the arguments it was given. */
  datatype Call =
    | ListCall(namespace: string)
    | WriteCall(path: string, data: Bytes, perm: nat)
    | ImageStreamCall(namespace: string)
    | RefreshCall(repository: string)
    | StatusUpdateCall(status: FalconConfigStatus)

  /** A regular file: its contents and its permission bits. */
  datatype File = File(contents: Bytes, mode: nat)

  const DockercfgPath: string := "/tmp/.dockercfg"

  /** Permission bits 0600: read and write for the owner only. */
  const DockercfgPerm: nat := 384

  const CredentialPrefix: string := "Cannot find dockercfg secret from the current namespace"
  const ImageStreamPrefix: string := "Cannot access image stream"
  const RefreshPrefix: string := "Cannot refresh Falcon Container Image"

  /** The text of `fmt.Errorf("%s %w", message, cause)`: the message, one
      space, then the cause's own text; never empty. */
  function Wrap(message: string, cause: Error): (r: string)
    ensures r != ""
    ensures |r| == |message| + 1 + |cause|
    ensures r[..|message|] == message && r[|message|] == ' ' && r[|message| + 1..] == cause
  {
    message + " " + cause
  }

  /** `ioutil.WriteFile`: the file holds exactly `data` afterwards; `perm`
      applies only when the file is created, an existing file keeps its
      permission bits. */
  function WriteFileEffect(files: map<string, File>, path: string, data: Bytes, perm: nat): (r: map<string, File>)
    ensures r.Keys == files.Keys + {path}
    ensures r[path].contents == data
    ensures r[path].mode == if path in files then files[path].mode else perm
    ensures forall p :: p in files && p != path ==> r[p] == files[p]
  {
    files[path := File(data, if path in files then files[path].mode else perm)]
  }

  /** The secrets were listed and one of them qualifies. */
  predicate CredentialFound(env: Environment) {
    env.secrets.Ok? && FirstDockercfg(env.secrets.value).Some?
  }

  /** The error an outside call returned, and the calls made. */
  datatype Step = Step(err: Option<Error>, calls: seq<Call>)

  /** What `ensureDockercfg` does: look the credential up, and only when
      that succeeded write it to the credential file. */
  function EnsureDockercfgSpec(namespace: string, env: Environment): Step {
    var lookup := LookupDockercfg(namespace, env.secrets);
    if lookup.err.Some? then
      Step(lookup.err, [ListCall(namespace)])
    else
      Step(env.writeFile, [ListCall(namespace), WriteCall(DockercfgPath, lookup.payload, DockercfgPerm)])
  }

  /** `ensureDockercfg` writes exactly the bytes of the first qualifying
      secret, with permission 0600, and returns what the write returned;
      when no credential was located it writes nothing and returns the
      lookup's error: the list call's own error, or one naming the
      namespace. */
  lemma EnsureDockercfgWritesLocatedBytes(namespace: string, env: Environment)
    ensures var s := EnsureDockercfgSpec(namespace, env);
      && (CredentialFound(env) ==>
            && s.calls == [ListCall(namespace), WriteCall(DockercfgPath, FirstDockercfg(env.secrets.value).value, DockercfgPerm)]
            && s.err == env.writeFile)
      && (!CredentialFound(env) ==>
            && s.calls == [ListCall(namespace)]
            && s.err.Some?
            && (env.secrets.Err? ==> s.err == Some(env.secrets.error))
            && (env.secrets.Ok? ==> Mentions(s.err.value, namespace)))
  {
    LookupDockercfgContract(namespace, env.secrets);
    var lookup := LookupDockercfg(namespace, env.secrets);
    if lookup.err.None? {
      var i :| FirstQualifying(env.secrets.value, i) && lookup.payload == Payload(env.secrets.value[i]);
      FirstDockercfgAt(env.secrets.value, i);
    }
  }

  /** The credential file system after `ensureDockercfg`. */
  function FilesAfterEnsure(files: map<string, File>, namespace: string, env: Environment): map<string, File> {
    var lookup := LookupDockercfg(namespace, env.secrets);
    if lookup.err.None? && env.writeFile.None? then
      WriteFileEffect(files, DockercfgPath, lookup.payload, DockercfgPerm)
    else files
  }

  /** Everything a reconciliation pass leaves behind. */
  datatype Outcome = Outcome(status: FalconConfigStatus, result: CtrlResult, err: Option<Error>, calls: seq<Call>)

  /** All three steps of the phase succeed. */
  predicate StepsSucceed(env: Environment) {
    CredentialFound(env) && env.writeFile.None? && env.imageStream.Ok? && env.refresh.None?
  }

  /** What the shared failure transition `error` leaves behind, after the
      calls `made` before it. */
  function Failed(made: seq<Call>, message: string, cause: Error): Outcome {
    var status := FalconConfigStatus(PhaseDone, Wrap(message, cause));
    Outcome(status, NoRequeue, Some(status.errorMessage), made + [StatusUpdateCall(status)])
  }

  /** What `phaseBuildingReconcile` leaves behind for a resource in
      `namespace`: the status, the result, the returned error and the
      calls made. The status does not depend on the one before the pass. */
  function BuildingSpec(namespace: string, env: Environment): (o: Outcome)
    ensures o.result == NoRequeue
    ensures o.status.phase != PhaseBuilding
    ensures o.status.errorMessage != "" <==> o.status.phase == PhaseDone
    ensures o.status.phase == PhaseConfiguring <==> StepsSucceed(env)
    ensures StepsSucceed(env) ==> o.status.errorMessage == "" && o.err == env.statusUpdate
    ensures !StepsSucceed(env) ==> o.err == Some(o.status.errorMessage)
    ensures |o.calls| > 0 && o.calls[|o.calls| - 1] == StatusUpdateCall(o.status)
  {
    var ensured := EnsureDockercfgSpec(namespace, env);
    if ensured.err.Some? then
      Failed(ensured.calls, CredentialPrefix, ensured.err.value)
    else
      var streamCalls := ensured.calls + [ImageStreamCall(namespace)];
      match env.imageStream
      case Err(cause) => Failed(streamCalls, ImageStreamPrefix, cause)
      case Ok(stream) =>
        var refreshCalls := streamCalls + [RefreshCall(stream.dockerImageRepository)];
        if env.refresh.Some? then
          Failed(refreshCalls, RefreshPrefix, env.refresh.value)
        else
          var status := FalconConfigStatus(PhaseConfiguring, "");
          Outcome(status, NoRequeue, env.statusUpdate, refreshCalls + [StatusUpdateCall(status)])
  }

  /** Every pass writes the status exactly once, as its last call, and
      what it writes is the status it leaves on the resource. */
  lemma StatusWrittenOnce(namespace: string, env: Environment)
    ensures var o := BuildingSpec(namespace, env);
      && o.calls[|o.calls| - 1] == StatusUpdateCall(o.status)
      && forall k :: 0 <= k < |o.calls| - 1 ==> !o.calls[k].StatusUpdateCall?
  {
  }

  /** A credential that cannot be located or written ends the pass before
      the image stream is read or the image refreshed. */
  lemma CredentialFailureShortCircuits(namespace: string, env: Environment)
    requires EnsureDockercfgSpec(namespace, env).err.Some?
    ensures var o := BuildingSpec(namespace, env);
      var cause := EnsureDockercfgSpec(namespace, env).err.value;
      && o.status == FalconConfigStatus(PhaseDone, Wrap(CredentialPrefix, cause))
      && o.calls == EnsureDockercfgSpec(namespace, env).calls + [StatusUpdateCall(o.status)]
      && forall c :: c in o.calls ==> !c.ImageStreamCall? && !c.RefreshCall?
  {
  }

  /** An image stream that cannot be read ends the pass before the image is
      refreshed. */
  lemma ImageStreamFailureShortCircuits(namespace: string, env: Environment)
    requires CredentialFound(env) && env.writeFile.None? && env.imageStream.Err?
    ensures var o := BuildingSpec(namespace, env);
      && o.status == FalconConfigStatus(PhaseDone, Wrap(ImageStreamPrefix, env.imageStream.error))
      && o.calls == EnsureDockercfgSpec(namespace, env).calls + [ImageStreamCall(namespace), StatusUpdateCall(o.status)]
      && forall c :: c in o.calls ==> !c.RefreshCall?
  {
  }

  /** A failed refresh is reported with its own prefix, after the credential
      was written and the image stream read. */
  lemma RefreshFailureReported(namespace: string, env: Environment)
    requires CredentialFound(env) && env.writeFile.None? && env.imageStream.Ok? && env.refresh.Some?
    ensures var o := BuildingSpec(namespace, env);
      && o.status == FalconConfigStatus(PhaseDone, Wrap(RefreshPrefix, env.refresh.value))
      && o.calls == EnsureDockercfgSpec(namespace, env).calls
           + [ImageStreamCall(namespace), RefreshCall(env.imageStream.value.dockerImageRepository), StatusUpdateCall(o.status)]
  {
  }

  /** The image is refreshed only after the credential found in the
      namespace was written to the credential file, and it is pushed to
      the repository the image stream names. */
  lemma RefreshFollowsCredentialWrite(namespace: string, env: Environment, k: int)
    requires var o := BuildingSpec(namespace, env); 0 <= k < |o.calls| && o.calls[k].RefreshCall?
    ensures var o := BuildingSpec(namespace, env);
      && CredentialFound(env) && env.writeFile.None? && env.imageStream.Ok?
      && o.calls[k] == RefreshCall(env.imageStream.value.dockerImageRepository)
      && k == 3
      && o.calls[..k] == [ListCall(namespace),
                          WriteCall(DockercfgPath, FirstDockercfg(env.secrets.value).value, DockercfgPerm),
                          ImageStreamCall(namespace)]
  {
  }

  /** A refresh failing with "registry unreachable" leaves the resource done,
      with that cause behind the refresh prefix. */
  lemma RegistryUnreachableScenario(namespace: string, env: Environment)
    requires CredentialFound(env) && env.writeFile.None? && env.imageStream.Ok?
    requires env.refresh == Some("registry unreachable")
    ensures BuildingSpec(namespace, env).status
      == FalconConfigStatus(PhaseDone, "Cannot refresh Falcon Container Image registry unreachable")
  {
    RefreshFailureReported(namespace, env);
    RefreshMessageText();
  }

  /** The refresh prefix and the cause "registry unreachable" are joined
      by a single space. */
  lemma RefreshMessageText()
    ensures Wrap(RefreshPrefix, "registry unreachable") == "Cannot refresh Falcon Container Image registry unreachable"
  {
  }

  /** A FalconConfig resource: its namespace and its status. */
  class FalconConfig {
    const namespace: string
    var status: FalconConfigStatus

    constructor (namespace: string, status: FalconConfigStatus)
      ensures this.namespace == namespace && this.status == status
    {
      this.namespace := namespace;
      this.status := status;
    }
  }

  /** `FalconConfigReconciler`, with a ghost record of the calls it makes
      and of the files it has written. */
  class FalconConfigReconciler {
    ghost var calls: seq<Call>
    ghost var files: map<string, File>

    constructor (ghost files: map<string, File>)
      ensures this.calls == [] && this.files == files
    {
      this.calls := [];
      this.files := files;
    }

    /** `ioutil.WriteFile(path, data, perm)`; the file changes only when the
        write succeeds. */
    method WriteFile(path: string, data: Bytes, perm: nat, env: Environment) returns (err: Option<Error>)
      modifies this`calls, this`files
      ensures err == env.writeFile
      ensures calls == old(calls) + [WriteCall(path, data, perm)]
      ensures files == if err.None? then WriteFileEffect(old(files), path, data, perm) else old(files)
    {
      calls := calls + [WriteCall(path, data, perm)];
      err := env.writeFile;
      if err.None? {
        files := WriteFileEffect(files, path, data, perm);
      }
    }

    /** `ensureDockercfg`. */
    method EnsureDockercfg(namespace: string, env: Environment) returns (err: Option<Error>)
      modifies this`calls, this`files
      ensures var s := EnsureDockercfgSpec(namespace, env); err == s.err && calls == old(calls) + s.calls
      ensures files == FilesAfterEnsure(old(files), namespace, env)
    {
      calls := calls + [ListCall(namespace)];
      var dockercfg, lookupErr := GetDockercfg(namespace, env.secrets);
      if lookupErr.Some? {
        return lookupErr;
      }
      err := WriteFile(DockercfgPath, dockercfg, DockercfgPerm, env);
    }

    /** `r.imageStream`. */
    method GetImageStream(namespace: string, env: Environment) returns (stream: Result<ImageStream>)
      modifies this`calls
      ensures stream == env.imageStream
      ensures calls == old(calls) + [ImageStreamCall(namespace)]
    {
      calls := calls + [ImageStreamCall(namespace)];
      stream := env.imageStream;
    }

    /** `ImageRefresher.Refresh(repository)`. */
    method Refresh(repository: string, env: Environment) returns (err: Option<Error>)
      modifies this`calls
      ensures err == env.refresh
      ensures calls == old(calls) + [RefreshCall(repository)]
    {
      calls := calls + [RefreshCall(repository)];
      err := env.refresh;
    }

    /** `Client.Status().Update(instance)`: sends the current status. */
    method UpdateStatus(instance: FalconConfig, env: Environment) returns (err: Option<Error>)
      modifies this`calls
      ensures err == env.statusUpdate
      ensures calls == old(calls) + [StatusUpdateCall(instance.status)]
    {
      calls := calls + [StatusUpdateCall(instance.status)];
      err := env.statusUpdate;
    }

    /** `error`: records the wrapped failure on the status, marks the
        resource done, tries to persist the status, ignoring a failure to
        do so, and returns the wrapped failure. */
    method ErrorTransition(instance: FalconConfig, message: string, cause: Error, env: Environment)
      returns (result: CtrlResult, err: Option<Error>)
      modifies this`calls, instance`status
      ensures instance.status == FalconConfigStatus(PhaseDone, Wrap(message, cause))
      ensures instance.status.errorMessage != ""
      ensures err == Some(instance.status.errorMessage)
      ensures result == NoRequeue
      ensures calls == old(calls) + [StatusUpdateCall(instance.status)]
    {
      var userError := Wrap(message, cause);
      instance.status := instance.status.(errorMessage := userError);
      instance.status := instance.status.(phase := PhaseDone);
      var _ := UpdateStatus(instance, env);
      return NoRequeue, Some(userError);
    }

    /** `phaseBuildingReconcile`. */
    method PhaseBuildingReconcile(instance: FalconConfig, env: Environment) returns (result: CtrlResult, err: Option<Error>)
      modifies this`calls, this`files, instance`status
      ensures var o := BuildingSpec(instance.namespace, env);
        && instance.status == o.status && result == o.result && err == o.err
        && calls == old(calls) + o.calls
      ensures files == FilesAfterEnsure(old(files), instance.namespace, env)
    {
      ghost var before := calls;
      ghost var o := BuildingSpec(instance.namespace, env);
      ghost var ensured := EnsureDockercfgSpec(instance.namespace, env);
      var ensureErr := EnsureDockercfg(instance.namespace, env);
      assert calls == before + ensured.calls;
      if ensureErr.Some? {
        assert o == Failed(ensured.calls, CredentialPrefix, ensureErr.value);
        result, err := ErrorTransition(instance, CredentialPrefix, ensureErr.value, env);
        return;
      }
      var stream := GetImageStream(instance.namespace, env);
      ghost var streamCalls := ensured.calls + [ImageStreamCall(instance.namespace)];
      assert calls == before + streamCalls;
      if stream.Err? {
        assert o == Failed(streamCalls, ImageStreamPrefix, stream.error);
        result, err := ErrorTransition(instance, ImageStreamPrefix, stream.error, env);
        return;
      }
      var refreshErr := Refresh(stream.value.dockerImageRepository, env);
      ghost var refreshCalls := streamCalls + [RefreshCall(stream.value.dockerImageRepository)];
      assert calls == before + refreshCalls;
      if refreshErr.Some? {
        assert o == Failed(refreshCalls, RefreshPrefix, refreshErr.value);
        result, err := ErrorTransition(instance, RefreshPrefix, refreshErr.value, env);
        return;
      }
      instance.status := instance.status.(errorMessage := "");
      instance.status := instance.status.(phase := PhaseConfiguring);
      assert o == Outcome(instance.status, NoRequeue, env.statusUpdate, refreshCalls + [StatusUpdateCall(instance.status)]);
      err := UpdateStatus(instance, env);
      result := NoRequeue;
    }
  }

  /** Two passes against the same cluster state leave the same status and
      return the same result and error: the pass overwrites both status
      fields whatever they held. */
  method RepeatedBuilding(r: FalconConfigReconciler, instance: FalconConfig, env: Environment)
    returns (first: FalconConfigStatus, second: FalconConfigStatus, firstErr: Option<Error>, secondErr: Option<Error>)
    modifies r, instance
    ensures first == second && firstErr == secondErr
    ensures first == BuildingSpec(instance.namespace, env).status
  {
    var res1, res2;
    res1, firstErr := r.PhaseBuildingReconcile(instance, env);
    first := instance.status;
    res2, secondErr := r.PhaseBuildingReconcile(instance, env);
    second := instance.status;
  }
}
