/**
 * The kcli interface check of the baremetal platform validation: it asks the
 * kcli host at the platform's libvirt URI for its networks once, and reports
 * `externalBridge` and `provisioningBridge` when they name no network there.
 *
 * The RPC itself (dialing the host, the 5-second deadline, ListNetworks) is
 * not modelled: what the host answered is the input `KcliReply`.
 */
module KcliValidation {
  import opened Wrappers
  import opened GoFormat

  // ---------------------------------------------------------------------------
  // Data model

  /** One record of the ListNetworks response. */
  datatype Network = Network(network: string)

  /** The outcome of the one RPC exchange with the kcli host. */
  datatype KcliReply =
    | DialFailed(cause: string)          // grpc.Dial returned an error
    | ListFailed(cause: string)          // ListNetworks returned an error
    | Listed(networks: seq<Network>)     // ListNetworks answered

  /** The fields of the baremetal platform this check reads. */
  datatype Platform = Platform(libvirtURI: string, externalBridge: string, provisioningBridge: string)

  /** A field path, as the sequence of its segments from the root. */
  type FieldPath = seq<string>

  function Child(path: FieldPath, name: string): FieldPath
  {
    path + [name]
  }

  datatype ErrorType = ErrorTypeInternal | ErrorTypeInvalid

  /** A field error: its type, the field it is about, the offending value (nil for internal errors), and the detail. */
  datatype FieldError = FieldError(kind: ErrorType, field: FieldPath, badValue: Option<string>, detail: string)

  function InternalError(path: FieldPath, detail: string): FieldError
  {
    FieldError(ErrorTypeInternal, path, None, detail)
  }

  function Invalid(path: FieldPath, value: string, detail: string): FieldError
  {
    FieldError(ErrorTypeInvalid, path, Some(value), detail)
  }

  /** The closure interfaceValidator returns, represented by the names it captured. */
  datatype Lookup = Lookup(interfaceNames: seq<string>)

  // ---------------------------------------------------------------------------
  // Messages

  const NoInterfacesFound := "no interfaces found"
  const NotFoundPrefix := "could not find interface "
  const ValidInterfacesAre := ", valid interfaces are "
  const DialContext := "fail to connect to kcli url"
  const ListContext := "could not list network interfaces"

  /** The text of `errors.Wrap(cause, context)`. */
  function Wrap(cause: string, context: string): string
  {
    context + ": " + cause
  }

  /** The message for a name that is not among a non-empty list of names. */
  function NotFoundMessage(interfaceName: string, interfaceNames: seq<string>): string
  {
    NotFoundPrefix + Quote(interfaceName) + ValidInterfacesAre + Join(interfaceNames, ", ")
  }

  /** Reads back the quoted name and the joined list of names from a not-found message. */
  function ParseNotFound(msg: string): Option<(string, string)>
  {
    if |msg| < |NotFoundPrefix| || msg[..|NotFoundPrefix|] != NotFoundPrefix then None
    else match UnquotePrefix(msg[|NotFoundPrefix|..])
      case None => None
      case Some((name, rest)) =>
        if |rest| < |ValidInterfacesAre| || rest[..|ValidInterfacesAre|] != ValidInterfacesAre then None
        else Some((name, rest[|ValidInterfacesAre|..]))
  }

  // ---------------------------------------------------------------------------
  // Specification

  /** The names of the networks, in response order. */
  function NamesOf(networks: seq<Network>): seq<string>
  {
    seq(|networks|, i requires 0 <= i < |networks| => networks[i].network)
  }

  /** What interfaceValidator returns for a host's reply: the lookup, or the wrapped error. */
  function Fetch(reply: KcliReply): Result<Lookup>
  {
    match reply
    case DialFailed(cause) => Err(Wrap(cause, DialContext))
    case ListFailed(cause) => Err(Wrap(cause, ListContext))
    case Listed(networks) => Ok(Lookup(NamesOf(networks)))
  }

  /** What the lookup returns for a name; `None` is a nil error. */
  function Check(lookup: Lookup, interfaceName: string): Option<string>
  {
    if |lookup.interfaceNames| == 0 then Some(NoInterfacesFound)
    else if interfaceName in lookup.interfaceNames then None
    else Some(NotFoundMessage(interfaceName, lookup.interfaceNames))
  }

  /** The errors one field contributes: none when the lookup accepts its value. */
  function FieldErrors(lookup: Lookup, path: FieldPath, value: string): seq<FieldError>
  {
    match Check(lookup, value)
    case None => []
    case Some(detail) => [Invalid(path, value, detail)]
  }

  /** The error list validateInterfaces returns. */
  function Validation(p: Platform, fldPath: FieldPath, reply: KcliReply): seq<FieldError>
  {
    match Fetch(reply)
    case Err(e) => [InternalError(Child(fldPath, "libvirtURI"), e)]
    case Ok(lookup) =>
      FieldErrors(lookup, Child(fldPath, "externalBridge"), p.externalBridge) +
      FieldErrors(lookup, Child(fldPath, "provisioningBridge"), p.provisioningBridge)
  }

  // ---------------------------------------------------------------------------
  // Operations

  /** The name extraction of interfaceValidator: a slice of the response's length, filled by index. */
  method ExtractNames(networks: seq<Network>) returns (interfaceNames: seq<string>)
    ensures |interfaceNames| == |networks|
    ensures forall i :: 0 <= i < |networks| ==> interfaceNames[i] == networks[i].network
  {
    var names := new string[|networks|];
    for idx := 0 to |networks|
      invariant forall k :: 0 <= k < idx ==> names[k] == networks[k].network
    {
      names[idx] := networks[idx].network;
    }
    interfaceNames := names[..];
  }

  /** interfaceValidator once the host has answered: the lookup over the network names, or the wrapped RPC error. */
  method InterfaceValidator(reply: KcliReply) returns (r: Result<Lookup>)
    ensures reply.DialFailed? ==> r == Err("fail to connect to kcli url: " + reply.cause)
    ensures reply.ListFailed? ==> r == Err("could not list network interfaces: " + reply.cause)
    ensures reply.Listed? ==> r.Ok? && |r.value.interfaceNames| == |reply.networks|
    ensures reply.Listed? ==> forall i :: 0 <= i < |reply.networks| ==> r.value.interfaceNames[i] == reply.networks[i].network
  {
    match reply
    case DialFailed(cause) =>
      return Err(Wrap(cause, DialContext));
    case ListFailed(cause) =>
      return Err(Wrap(cause, ListContext));
    case Listed(networks) =>
      var interfaceNames := ExtractNames(networks);
      return Ok(Lookup(interfaceNames));
  }

  /** Calling the lookup closure: a linear search over the captured names. */
  method FindInterface(lookup: Lookup, interfaceName: string) returns (err: Option<string>)
    ensures |lookup.interfaceNames| == 0 ==> err == Some("no interfaces found")
    ensures |lookup.interfaceNames| > 0 && interfaceName in lookup.interfaceNames ==> err == None
    ensures |lookup.interfaceNames| > 0 && interfaceName !in lookup.interfaceNames ==>
      err == Some("could not find interface " + Quote(interfaceName) + ", valid interfaces are " + Join(lookup.interfaceNames, ", "))
  {
    var interfaceNames := lookup.interfaceNames;
    if |interfaceNames| == 0 {
      return Some(NoInterfacesFound);
    }
    for i := 0 to |interfaceNames|
      invariant interfaceName !in interfaceNames[..i]
    {
      if interfaceNames[i] == interfaceName {
        return None;
      }
    }
    assert interfaceNames[..|interfaceNames|] == interfaceNames;
    return Some(NotFoundMessage(interfaceName, interfaceNames));
  }

  /** validateInterfaces: one fetch, then the two bridge fields in order, each appending an error when its lookup fails. */
  method ValidateInterfaces(p: Platform, fldPath: FieldPath, reply: KcliReply) returns (errorList: seq<FieldError>)
    ensures errorList == Validation(p, fldPath, reply)
  {
    errorList := [];
    var findInterface := InterfaceValidator(reply);
    if findInterface.Err? {
      assert findInterface == Fetch(reply);
      errorList := errorList + [InternalError(Child(fldPath, "libvirtURI"), findInterface.error)];
      return;
    }
    assert findInterface.value.interfaceNames == NamesOf(reply.networks);
    var err := FindInterface(findInterface.value, p.externalBridge);
    if err.Some? {
      errorList := errorList + [Invalid(Child(fldPath, "externalBridge"), p.externalBridge, err.value)];
    }
    err := FindInterface(findInterface.value, p.provisioningBridge);
    if err.Some? {
      errorList := errorList + [Invalid(Child(fldPath, "provisioningBridge"), p.provisioningBridge, err.value)];
    }
  }

  // ---------------------------------------------------------------------------
  // Properties

  /** The name list has one entry per network, the `i`th network's name at index `i`. */
  lemma NamesInResponseOrder(networks: seq<Network>)
    ensures |NamesOf(networks)| == |networks|
    ensures forall i :: 0 <= i < |networks| ==> NamesOf(networks)[i] == networks[i].network
    ensures forall n :: n in NamesOf(networks) <==> Network(n) in networks
  {
    forall n | Network(n) in networks ensures n in NamesOf(networks) {
      var i :| 0 <= i < |networks| && networks[i] == Network(n);
      assert NamesOf(networks)[i] == n;
    }
  }

  /** A failed fetch gives exactly one error, internal, on `libvirtURI`, carrying the wrapped cause; no field is checked. */
  lemma FetchFailureIsSingleInternalError(p: Platform, fldPath: FieldPath, reply: KcliReply)
    requires !reply.Listed?
    ensures var errs := Validation(p, fldPath, reply);
      |errs| == 1 && errs[0].kind == ErrorTypeInternal && errs[0].field == fldPath + ["libvirtURI"] &&
      errs[0].badValue == None &&
      errs[0].detail == (if reply.DialFailed? then "fail to connect to kcli url: " else "could not list network interfaces: ") + reply.cause
  {
  }

  /**
   * After a successful fetch: at most two errors, all of type invalid, an
   * `externalBridge` error before a `provisioningBridge` one, each carrying its
   * field's value and the lookup's message for that value.
   */
  lemma FieldErrorsInOrder(p: Platform, fldPath: FieldPath, networks: seq<Network>)
    ensures var errs := Validation(p, fldPath, Listed(networks));
      var lookup := Lookup(NamesOf(networks));
      var extPath, provPath := fldPath + ["externalBridge"], fldPath + ["provisioningBridge"];
      |errs| <= 2 &&
      |errs| == (if Check(lookup, p.externalBridge).Some? then 1 else 0) + (if Check(lookup, p.provisioningBridge).Some? then 1 else 0) &&
      (forall e :: e in errs ==> e.kind == ErrorTypeInvalid && (e.field == extPath || e.field == provPath)) &&
      (Check(lookup, p.externalBridge) == None ==> forall e :: e in errs ==> e.field != extPath) &&
      (Check(lookup, p.externalBridge).Some? ==>
        |errs| > 0 && errs[0] == Invalid(extPath, p.externalBridge, Check(lookup, p.externalBridge).value)) &&
      (Check(lookup, p.provisioningBridge) == None ==> forall e :: e in errs ==> e.field != provPath) &&
      (Check(lookup, p.provisioningBridge).Some? ==>
        |errs| > 0 && errs[|errs| - 1] == Invalid(provPath, p.provisioningBridge, Check(lookup, p.provisioningBridge).value))
  {
    assert (fldPath + ["externalBridge"])[|fldPath|] != (fldPath + ["provisioningBridge"])[|fldPath|];
  }

  /** A successful fetch gives no error exactly when both bridges name a network of the host. */
  lemma NoErrorsIffBothFound(p: Platform, fldPath: FieldPath, networks: seq<Network>)
    ensures Validation(p, fldPath, Listed(networks)) == [] <==>
      networks != [] && Network(p.externalBridge) in networks && Network(p.provisioningBridge) in networks
  {
    NamesInResponseOrder(networks);
  }

  /** With no networks on the host, both fields are reported "no interfaces found", whatever their values, "" included. */
  lemma EmptyInventoryRejectsEveryField(p: Platform, fldPath: FieldPath)
    ensures Validation(p, fldPath, Listed([])) ==
      [Invalid(fldPath + ["externalBridge"], p.externalBridge, "no interfaces found"),
       Invalid(fldPath + ["provisioningBridge"], p.provisioningBridge, "no interfaces found")]
  {
  }

  /** Names are compared as they are: a value that differs from every name only in case or spacing is rejected. */
  lemma ExactMatchOnly(lookup: Lookup, interfaceName: string)
    requires |lookup.interfaceNames| > 0
    ensures Check(lookup, interfaceName) == None <==> exists i :: 0 <= i < |lookup.interfaceNames| && lookup.interfaceNames[i] == interfaceName
  {
  }

  /**
   * The not-found message determines the value it quotes and the list it
   * gives, which is every known name joined by ", " in order.
   */
  lemma NotFoundMessageNamesValueAndList(interfaceName: string, interfaceNames: seq<string>)
    ensures ParseNotFound(NotFoundMessage(interfaceName, interfaceNames)) == Some((interfaceName, Join(interfaceNames, ", ")))
    ensures NotFoundMessage(interfaceName, interfaceNames) != NoInterfacesFound
  {
    var m := NotFoundMessage(interfaceName, interfaceNames);
    var n := |NotFoundPrefix|;
    var tail := ValidInterfacesAre + Join(interfaceNames, ", ");
    assert m == NotFoundPrefix + (Quote(interfaceName) + tail);
    assert m[..n] == NotFoundPrefix;
    assert m[n..] == Quote(interfaceName) + tail;
    QuoteRoundTrip(interfaceName, tail);
    assert tail[..|ValidInterfacesAre|] == ValidInterfacesAre;
    assert m[0] == 'c';
  }

  /** Two rejected values with the same message are the same value, checked against lists that join alike. */
  lemma NotFoundMessageInjective(a: string, namesA: seq<string>, b: string, namesB: seq<string>)
    requires NotFoundMessage(a, namesA) == NotFoundMessage(b, namesB)
    ensures a == b && Join(namesA, ", ") == Join(namesB, ", ")
  {
    NotFoundMessageNamesValueAndList(a, namesA);
    NotFoundMessageNamesValueAndList(b, namesB);
  }

  /** Every error about a bridge field quotes the offending value and lists each known name, in order, at its place in the list. */
  lemma RejectionQuotesValueAndListsNames(p: Platform, fldPath: FieldPath, networks: seq<Network>, k: nat, i: nat)
    requires networks != []
    requires k < |Validation(p, fldPath, Listed(networks))|
    requires i < |networks|
    ensures var e := Validation(p, fldPath, Listed(networks))[k];
      var names := NamesOf(networks);
      e.badValue.Some? && e.badValue.value !in names &&
      match ParseNotFound(e.detail)
      case None => false
      case Some((value, list)) =>
        value == e.badValue.value &&
        Offset(names, ", ", i) + |networks[i].network| <= |list| &&
        list[Offset(names, ", ", i)..Offset(names, ", ", i) + |networks[i].network|] == networks[i].network
  {
    var e := Validation(p, fldPath, Listed(networks))[k];
    var names := NamesOf(networks);
    NamesInResponseOrder(networks);
    NotFoundMessageNamesValueAndList(e.badValue.value, names);
    JoinAt(names, ", ", i);
  }

  /**
   * Both fields are checked against one snapshot of the host's networks: two
   * equal values get the same outcome and the same message.
   */
  lemma OneSnapshotForBothFields(p: Platform, fldPath: FieldPath, reply: KcliReply)
    requires reply.Listed?
    requires p.externalBridge == p.provisioningBridge
    ensures var errs := Validation(p, fldPath, reply);
      errs == [] || (|errs| == 2 && errs[0].detail == errs[1].detail && errs[0].badValue == errs[1].badValue)
  {
  }

  /** A host with networks br0 and provisioning: a provisioning bridge prov0 is the one error, listing both names. */
  lemma ProvisioningBridgeMissing(fldPath: FieldPath)
    ensures Validation(Platform("qemu+ssh://host/system", "br0", "prov0"), fldPath, Listed([Network("br0"), Network("provisioning")])) ==
      [Invalid(fldPath + ["provisioningBridge"], "prov0", "could not find interface \"prov0\", valid interfaces are br0, provisioning")]
  {
    var networks := [Network("br0"), Network("provisioning")];
    var names := ["br0", "provisioning"];
    assert NamesOf(networks) == names;
    assert "prov0" !in names;
    ScenarioMessage();
  }

  lemma ScenarioMessage()
    ensures NotFoundMessage("prov0", ["br0", "provisioning"]) ==
      "could not find interface \"prov0\", valid interfaces are br0, provisioning"
  {
    QuotePlain("prov0");
    assert Quote("prov0") == "\"prov0\"";
    assert Join(["br0", "provisioning"], ", ") == "br0, provisioning";
    LiteralPieces();
  }

  lemma LiteralPieces()
    ensures NotFoundPrefix + "\"prov0\"" + ValidInterfacesAre + "br0, provisioning" ==
      "could not find interface \"prov0\", valid interfaces are br0, provisioning"
  {
    assert "could not find interface " + "\"prov0\"" == "could not find interface \"prov0\"";
    assert "could not find interface \"prov0\"" + ", valid interfaces are " == "could not find interface \"prov0\", valid interfaces are ";
  }
}
