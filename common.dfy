/** Process-wide state of the operator (pkg/common/vars.go): the package
    variables, and the `init` function that overrides the operator's
    namespace with the one the service-account namespace file names.

    Go initialises a package's variables, in declaration order, before it
    runs the package's `init` functions (the Go Programming Language
    Specification, section "Package initialization"), so the CA is
    generated from the variables' initial values. */
module Common {
  import opened Wrappers
  import opened GoStrings

  const DefaultNamespace: string := "falcon-operator"
  const DefaultValidity: int := 3650
  const NamespaceFile: string := "/var/run/secrets/kubernetes.io/serviceaccount/namespace"

  /** A certificate authority, reduced to the arguments `GenCA` generated
      it from: the namespace identity and the validity in days. */
  datatype CertificateAuthority = CertificateAuthority(namespace: string, validityDays: int)

  /** `GenCA`; key generation and self-signing are not part of this model. */
  function GenCA(namespace: string, validity: int): CertificateAuthority {
    CertificateAuthority(namespace, validity)
  }

  /** The namespace `init` leaves behind, given the one before it and the
      outcome of reading the namespace file: unchanged when the read
      failed, otherwise the file's text with surrounding white space
      removed, which is empty exactly when the file holds only white space. */
  function ResolveNamespace(current: string, nsFile: Result<string>): (ns: string)
    ensures nsFile.Err? ==> ns == current
    ensures nsFile.Ok? ==> ns == "" || (!IsSpace(ns[0]) && !IsSpace(ns[|ns| - 1]))
    ensures nsFile.Ok? ==> (ns == "" <==> AllSpace(nsFile.value))
    ensures nsFile.Ok? ==> SpacePadded(ns, nsFile.value)
  {
    if nsFile.Ok? then TrimSpace(nsFile.value) else current
  }

  /** The package variables of `common`. */
  class PackageVars {
    var nodeSelector: map<string, string>
    var falconShellCommand: seq<string>
    var origDSConfVersion: string
    var falconOperatorNamespace: string
    var falconInjectorCommand: seq<string>
    var validity: int
    var ca: CertificateAuthority
    /** The paths of the files read so far, in order. */
    ghost var fileReads: seq<string>

    /** The `var` block, initialised in declaration order: `CA` is
        generated from the namespace and validity just assigned. */
    constructor ()
      ensures nodeSelector == map["kubernetes.io/os" := "linux"]
      ensures falconShellCommand == ["/bin/sh"]
      ensures origDSConfVersion == "0"
      ensures falconOperatorNamespace == DefaultNamespace
      ensures falconInjectorCommand == ["injector"]
      ensures validity == DefaultValidity
      ensures ca == CertificateAuthority(DefaultNamespace, DefaultValidity)
      ensures fileReads == []
    {
      nodeSelector := map["kubernetes.io/os" := "linux"];
      falconShellCommand := ["/bin/sh"];
      origDSConfVersion := "0";
      falconOperatorNamespace := "falcon-operator";
      falconInjectorCommand := ["injector"];
      validity := 3650;
      fileReads := [];
      new;
      ca := GenCA(falconOperatorNamespace, validity);
    }

    /** `init`: reads the service-account namespace file, whose outcome is
        `nsFile`; when the read succeeded, the operator's namespace becomes
        the file's trimmed text. No other variable changes. */
    method Init(nsFile: Result<string>)
      modifies this`falconOperatorNamespace, this`fileReads
      ensures fileReads == old(fileReads) + [NamespaceFile]
      ensures falconOperatorNamespace == ResolveNamespace(old(falconOperatorNamespace), nsFile)
    {
      fileReads := fileReads + [NamespaceFile];
      if nsFile.Ok? {
        var ns := TrimSpace(nsFile.value);
        falconOperatorNamespace := ns;
      }
    }
  }

  /** Initialisation of the package as the Go runtime performs it: the
      variables, then `init`. The CA is generated from the default
      namespace and validity whatever the namespace file holds. */
  method InitializePackage(nsFile: Result<string>) returns (vars: PackageVars)
    ensures fresh(vars)
    ensures vars.ca == CertificateAuthority(DefaultNamespace, DefaultValidity)
    ensures vars.falconOperatorNamespace == ResolveNamespace(DefaultNamespace, nsFile)
    ensures vars.nodeSelector == map["kubernetes.io/os" := "linux"]
    ensures vars.falconShellCommand == ["/bin/sh"]
    ensures vars.origDSConfVersion == "0"
    ensures vars.falconInjectorCommand == ["injector"]
    ensures vars.validity == DefaultValidity
    ensures vars.fileReads == [NamespaceFile]
  {
    vars := new PackageVars();
    vars.Init(nsFile);
  }

  /** `init` keeps the namespace free of white space at either end: the
      file's trimmed text has none, and a failed read keeps the previous
      namespace, which had none. */
  lemma ResolvedNamespaceIsTrimmed(current: string, nsFile: Result<string>)
    requires current == "" || (!IsSpace(current[0]) && !IsSpace(current[|current| - 1]))
    ensures var ns := ResolveNamespace(current, nsFile);
      ns == "" || (!IsSpace(ns[0]) && !IsSpace(ns[|ns| - 1]))
  {
  }

  /** A namespace file holding "  team-ns\n" makes the namespace "team-ns". */
  lemma TeamNamespaceFile(file: string)
    requires file == "  team-ns\n"
    ensures ResolveNamespace(DefaultNamespace, Ok(file)) == "team-ns"
  {
    assert file[..2] == "  " && file[9..] == "\n" && file[2..9] == "team-ns";
    TrimSpaceAt(file, 2, 9);
  }

  /** A namespace file holding only white space makes the namespace empty:
      there is no fallback to the default. */
  lemma BlankNamespaceFile(file: string)
    requires AllSpace(file)
    ensures ResolveNamespace(DefaultNamespace, Ok(file)) == ""
  {
  }

  /** The bootstrap as the Go runtime performs it, with "  team-ns\n" in
      the namespace file: the operator runs in "team-ns", but the CA that
      `InitializePackage` leaves is still issued for "falcon-operator". */
  method CaIgnoresNamespaceFile(file: string) returns (ca: CertificateAuthority, namespace: string)
    requires file == "  team-ns\n"
    ensures namespace == "team-ns"
    ensures ca.namespace == DefaultNamespace
    ensures ca.namespace != namespace
  {
    var vars := InitializePackage(Ok(file));
    TeamNamespaceFile(file);
    ca, namespace := vars.ca, vars.falconOperatorNamespace;
  }

  /** The CA the bootstrap is meant to produce: generated from the namespace
      that `init` resolves. */
  function IntendedCA(nsFile: Result<string>): (ca: CertificateAuthority)
    ensures nsFile.Err? ==> ca == CertificateAuthority(DefaultNamespace, DefaultValidity)
    ensures nsFile.Ok? ==> ca.namespace == "" || (!IsSpace(ca.namespace[0]) && !IsSpace(ca.namespace[|ca.namespace| - 1]))
    ensures ca.validityDays == DefaultValidity
  {
    GenCA(ResolveNamespace(DefaultNamespace, nsFile), DefaultValidity)
  }

  /** Initialisation with the namespace resolved before the CA is
      generated, so that the CA's namespace identity is the resolved one. */
  method InitializePackageNamespaceFirst(nsFile: Result<string>) returns (vars: PackageVars)
    ensures fresh(vars)
    ensures vars.ca == IntendedCA(nsFile)
    ensures vars.falconOperatorNamespace == ResolveNamespace(DefaultNamespace, nsFile)
    ensures vars.ca.namespace == vars.falconOperatorNamespace
    ensures vars.validity == DefaultValidity
    ensures vars.fileReads == [NamespaceFile]
  {
    vars := new PackageVars();
    vars.Init(nsFile);
    vars.ca := GenCA(vars.falconOperatorNamespace, vars.validity);
  }

  /** With the corrected order, "  team-ns\n" in the namespace file gives a
      CA for "team-ns", and an unreadable file one for the default. */
  lemma IntendedCaFollowsNamespaceFile(file: string, e: Error)
    requires file == "  team-ns\n"
    ensures IntendedCA(Ok(file)).namespace == "team-ns"
    ensures IntendedCA(Err(e)).namespace == DefaultNamespace
  {
    TeamNamespaceFile(file);
  }
}
