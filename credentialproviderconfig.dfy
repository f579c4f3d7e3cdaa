/**
 * A model of the external credential-provider keychain of the soci snapshotter
 * (service/keychain/credentialproviderconfig/credentialproviderconfig.go).
 *
 * The keychain obtains a registry username and password by running a plugin
 * binary that speaks the kubelet credential-provider protocol
 * (`credentialprovider.kubelet.k8s.io/v1`): a JSON request on standard input,
 * a JSON response on standard output, under a one-minute deadline.
 *
 * The file system, the child process, the clock and the JSON codec are not
 * modelled; what they report is supplied through `Effects`, and the model
 * proves how the client decides its result from those reports.
 */
module CredentialProviderConfig {
  import Wrappers

  // ---------------------------------------------------------------------
  // Options and their folding into a keychain
  // ---------------------------------------------------------------------

  /** The mutable options record that every `Option` writes through a pointer. */
  class Options {
    var binaryPath: string

    /** Go's zero value: no binary path configured. */
    constructor ()
      ensures binaryPath == ""
    {
      binaryPath := "";
    }
  }

  /**
   * A configuration option. The package exports one way to build an option,
   * `WithCredentialProviderPath`, so every option is one of these.
   */
  datatype Option = WithCredentialProviderPath(path: string) {

    /** The value the options record holds after this option ran on `binaryPath`. */
    function After(binaryPath: string): string {
      path
    }

    /** Runs the option's closure on the options record, in place. */
    method Apply(opts: Options)
      modifies opts
      ensures opts.binaryPath == After(old(opts.binaryPath))
    {
      opts.binaryPath := path;
    }
  }

  /** The binary path after running `opts`, in order, on a record holding `binaryPath`. */
  function ApplyAll(opts: seq<Option>, binaryPath: string): (r: string)
    ensures opts == [] ==> r == binaryPath
    ensures opts != [] ==> exists i :: 0 <= i < |opts| && r == opts[i].path
    decreases |opts|
  {
    if opts == [] then binaryPath else ApplyAll(opts[1..], opts[0].After(binaryPath))
  }

  /** Running `a` and then `b` is running `a + b`. */
  lemma {:induction false} ApplyAllAppend(a: seq<Option>, b: seq<Option>, binaryPath: string)
    ensures ApplyAll(a + b, binaryPath) == ApplyAll(b, ApplyAll(a, binaryPath))
    decreases |a|
  {
    if a != [] {
      assert (a + b)[1..] == a[1..] + b;
      ApplyAllAppend(a[1..], b, a[0].After(binaryPath));
    } else {
      assert a + b == b;
    }
  }

  /** The last option decides the binary path; with no options the start value stays. */
  lemma {:induction false} LastOptionWins(opts: seq<Option>, binaryPath: string)
    ensures ApplyAll(opts, binaryPath) == if opts == [] then binaryPath else opts[|opts| - 1].path
    decreases |opts|
  {
    if opts != [] {
      LastOptionWins(opts[1..], opts[0].After(binaryPath));
    }
  }

  /** The keychain: a plugin binary path fixed at construction. */
  class Keychain {
    const binaryPath: string

    constructor (binaryPath: string)
      ensures this.binaryPath == binaryPath
    {
      this.binaryPath := binaryPath;
    }

    /**
     * Fetches the credentials for `image` (the string form of the image
     * reference) by running the plugin. `host` only appears in a debug log.
     * On failure both strings are empty; on success the pair is one entry of
     * the response's `auth` map, which one being left open. `calls` records
     * the effects used, in the order they are used.
     */
    method Credentials(image: string, host: string, fx: Effects)
      returns (username: string, password: string, err: Wrappers.Option<CredentialError>, ghost calls: seq<Effect>)
      ensures calls == Fetch(binaryPath, image, fx).calls
      ensures err.Some? ==> username == "" && password == ""
      ensures Fetch(binaryPath, image, fx).outcome.Failed? ==>
                err == Wrappers.Some(Fetch(binaryPath, image, fx).outcome.error)
      ensures Fetch(binaryPath, image, fx).outcome.Answered? ==>
                err == Wrappers.None && Selected(Fetch(binaryPath, image, fx).outcome.auth, username, password)
    {
      calls := [StatCall(binaryPath)];
      var stat := fx.stat(binaryPath);
      if stat.NotExist? {
        return "", "", Wrappers.Some(BinaryNotFound(binaryPath)), calls;
      }
      if stat.StatError? {
        return "", "", Wrappers.Some(InspectFailed(binaryPath, stat.cause)), calls;
      }
      var request := NewRequest(image);
      calls := calls + [MarshalCall(request)];
      var encoded := fx.marshal(request);
      if encoded.EncodeFailed? {
        return "", "", Wrappers.Some(MarshalFailed(encoded.cause)), calls;
      }
      calls := calls + [RunCall(binaryPath, encoded.data, PluginTimeout)];
      var ran := fx.run(binaryPath, encoded.data, PluginTimeout);
      if ran.Aborted? {
        return "", "", Wrappers.Some(RunFailed(binaryPath, ran.cause)), calls;
      }
      calls := calls + [UnmarshalCall(ran.stdout)];
      var decoded := fx.unmarshal(ran.stdout);
      if decoded.DecodeFailed? {
        return "", "", Wrappers.Some(UnmarshalFailed(decoded.cause)), calls;
      }
      var auth := decoded.response.auth;
      if auth != map[] {
        // Go ranges over the map and returns the first entry it meets;
        // map iteration order is unspecified, so any entry may be picked.
        var key :| key in auth;
        return auth[key].username, auth[key].password, Wrappers.None, calls;
      }
      return "", "", Wrappers.Some(NoResponse(binaryPath)), calls;
    }
  }

  /**
   * Builds the keychain by running every option, in order, on a zero options
   * record; the keychain keeps the binary path the options leave behind.
   */
  method NewExternalCredentialProviderKeychain(opts: seq<Option>) returns (kc: Keychain)
    ensures kc.binaryPath == ApplyAll(opts, "")
    ensures kc.binaryPath == if opts == [] then "" else opts[|opts| - 1].path
  {
    var kcOpts := new Options();
    for i := 0 to |opts|
      invariant kcOpts.binaryPath == ApplyAll(opts[..i], "")
    {
      ApplyAllAppend(opts[..i], [opts[i]], "");
      assert opts[..i + 1] == opts[..i] + [opts[i]];
      opts[i].Apply(kcOpts);
    }
    assert opts[..|opts|] == opts;
    LastOptionWins(opts, "");
    kc := new Keychain(kcOpts.binaryPath);
  }

  // ---------------------------------------------------------------------
  // Protocol messages
  // ---------------------------------------------------------------------

  type Bytes = seq<bv8>

  /** The request written to the plugin's standard input. */
  datatype CredentialProviderRequest = CredentialProviderRequest(kind: string, apiVersion: string, image: string)

  /** One entry of the response's `auth` map. */
  datatype AuthConfig = AuthConfig(username: string, password: string)

  /** The response read from the plugin's standard output; an absent `auth` decodes as the empty map. */
  datatype CredentialProviderResponse = CredentialProviderResponse(
    kind: string,
    apiVersion: string,
    cacheKeyType: string,
    cacheDuration: string,
    auth: map<string, AuthConfig>)

  /** The request for an image: the protocol's kind and version, and the image. */
  function NewRequest(image: string): (r: CredentialProviderRequest)
    ensures r.kind == "CredentialProviderRequest"
    ensures r.apiVersion == "credentialprovider.kubelet.k8s.io/v1"
    ensures r.image == image
  {
    CredentialProviderRequest("CredentialProviderRequest", "credentialprovider.kubelet.k8s.io/v1", image)
  }

  /** The deadline, in seconds, under which the plugin runs. */
  const PluginTimeout: nat := 60

  // ---------------------------------------------------------------------
  // Effects: what the operating system and the JSON codec report
  // ---------------------------------------------------------------------

  /** What inspecting the binary path reports. */
  datatype StatResult = StatOk | NotExist | StatError(cause: string)

  /** What encoding the request reports. */
  datatype Encoded = Encoded(data: Bytes) | EncodeFailed(cause: string)

  /**
   * What running the plugin reports: its standard output when it exits
   * cleanly, or a failure (it did not start, exited non-zero, or was killed
   * when the deadline expired).
   */
  datatype RunResult = Completed(stdout: Bytes) | Aborted(cause: string)

  /** What decoding the plugin's standard output reports. */
  datatype Decoded = Decoded(response: CredentialProviderResponse) | DecodeFailed(cause: string)

  /**
   * The environment of one call: inspecting a path, encoding a request,
   * running a binary with bytes on standard input under a deadline in
   * seconds, and decoding bytes as a response.
   */
  datatype Effects = Effects(
    stat: string -> StatResult,
    marshal: CredentialProviderRequest -> Encoded,
    run: (string, Bytes, nat) -> RunResult,
    unmarshal: Bytes -> Decoded)

  /** One use of the environment, as recorded in a call's trace. */
  datatype Effect =
    | StatCall(path: string)
    | MarshalCall(request: CredentialProviderRequest)
    | RunCall(path: string, stdin: Bytes, deadline: nat)
    | UnmarshalCall(stdout: Bytes)

  /** The position of an effect in the pipeline. */
  function Stage(e: Effect): nat {
    match e
    case StatCall(_) => 0
    case MarshalCall(_) => 1
    case RunCall(_, _, _) => 2
    case UnmarshalCall(_) => 3
  }

  // ---------------------------------------------------------------------
  // Errors
  // ---------------------------------------------------------------------

  /** The six errors the keychain returns, with the values their messages carry. */
  datatype CredentialError =
    | BinaryNotFound(path: string)
    | InspectFailed(path: string, cause: string)
    | MarshalFailed(cause: string)
    | RunFailed(path: string, cause: string)
    | UnmarshalFailed(cause: string)
    | NoResponse(path: string)

  /** The fixed text each error message starts with. */
  function Lead(e: CredentialError): string {
    match e
    case BinaryNotFound(_) => "plugin binary directory "
    case InspectFailed(_, _) => "error inspecting binary directory "
    case MarshalFailed(_) => "error json marshal request : "
    case RunFailed(_, _) => "error running "
    case UnmarshalFailed(_) => "error json unmarshal request: "
    case NoResponse(_) => "no response from "
  }

  /** The text that follows the lead: the values the error carries, a wrapped cause as its own text. */
  function Detail(e: CredentialError): string {
    match e
    case BinaryNotFound(path) => path + " did not exist"
    case InspectFailed(path, cause) => path + ": " + cause
    case MarshalFailed(cause) => cause
    case RunFailed(path, cause) => path + " : " + cause
    case UnmarshalFailed(cause) => cause
    case NoResponse(path) => path
  }

  /** The text of the error, as the keychain formats it: the lead, then the detail. */
  function Message(e: CredentialError): (m: string)
    ensures Lead(e) <= m
    ensures e.BinaryNotFound? ==> |m| >= 14 && m[|m| - 14..] == " did not exist"
    ensures e.NoResponse? ==> m[|Lead(e)|..] == e.path
  {
    Lead(e) + Detail(e)
  }

  /** Two leads that prefix one string are the same lead: the kinds differ at character 0, 6 or 11. */
  lemma LeadsDiffer(e1: CredentialError, e2: CredentialError, s: string)
    requires Lead(e1) <= s && Lead(e2) <= s
    ensures Lead(e1) == Lead(e2)
  {
    assert |Lead(e1)| >= 12 && |Lead(e2)| >= 12;
    assert Lead(e1)[0] == s[0] == Lead(e2)[0];
    assert Lead(e1)[6] == s[6] == Lead(e2)[6];
    assert Lead(e1)[11] == s[11] == Lead(e2)[11];
  }

  /**
   * An error message tells which stage failed: equal messages come from the
   * same kind of error, and for a missing binary or an empty response they
   * also name the same path.
   */
  lemma MessageIdentifiesError(e1: CredentialError, e2: CredentialError)
    requires Message(e1) == Message(e2)
    ensures Lead(e1) == Lead(e2)
    ensures e1.BinaryNotFound? ==> e1 == e2
    ensures e1.NoResponse? ==> e1 == e2
  {
    var m := Message(e1);
    assert Lead(e1) == m[..|Lead(e1)|];
    assert Lead(e2) == m[..|Lead(e2)|];
    LeadsDiffer(e1, e2, m);
    assert Detail(e1) == m[|Lead(e1)|..] == Detail(e2);
    if e1.BinaryNotFound? {
      var n := |Detail(e1)| - |" did not exist"|;
      assert e1.path == Detail(e1)[..n];
      assert e2.path == Detail(e2)[..n];
    }
  }

  // ---------------------------------------------------------------------
  // The credentials pipeline
  // ---------------------------------------------------------------------

  /** How a call ends: with an error, or with the non-empty `auth` map to pick from. */
  datatype Outcome = Failed(error: CredentialError) | Answered(auth: map<string, AuthConfig>)

  /** A call: the effects it used, in order, and how it ended. */
  datatype Exchange = Exchange(calls: seq<Effect>, outcome: Outcome)

  /** The pair (`username`, `password`) is one of the entries of `auth`. */
  predicate Selected(auth: map<string, AuthConfig>, username: string, password: string) {
    exists key :: key in auth && auth[key] == AuthConfig(username, password)
  }

  /**
   * The decision logic of `credentials`: inspect the binary, encode the
   * request, run the plugin, decode its output, and answer with its `auth`
   * map; the first stage that fails decides the error and ends the call.
   */
  function Fetch(binaryPath: string, image: string, fx: Effects): (x: Exchange)
    ensures x.calls != [] && x.calls[0] == StatCall(binaryPath)
    ensures forall i :: 0 <= i < |x.calls| ==> Stage(x.calls[i]) == i
    ensures x.outcome.Answered? ==> |x.calls| == 4 && x.outcome.auth != map[]
  {
    match fx.stat(binaryPath)
    case NotExist => Exchange([StatCall(binaryPath)], Failed(BinaryNotFound(binaryPath)))
    case StatError(cause) => Exchange([StatCall(binaryPath)], Failed(InspectFailed(binaryPath, cause)))
    case StatOk =>
      var request := NewRequest(image);
      var calls := [StatCall(binaryPath), MarshalCall(request)];
      match fx.marshal(request)
      case EncodeFailed(cause) => Exchange(calls, Failed(MarshalFailed(cause)))
      case Encoded(data) =>
        var calls := calls + [RunCall(binaryPath, data, PluginTimeout)];
        match fx.run(binaryPath, data, PluginTimeout)
        case Aborted(cause) => Exchange(calls, Failed(RunFailed(binaryPath, cause)))
        case Completed(stdout) =>
          var calls := calls + [UnmarshalCall(stdout)];
          match fx.unmarshal(stdout)
          case DecodeFailed(cause) => Exchange(calls, Failed(UnmarshalFailed(cause)))
          case Decoded(response) =>
            if response.auth == map[] then Exchange(calls, Failed(NoResponse(binaryPath)))
            else Exchange(calls, Answered(response.auth))
  }

  /**
   * The request handed to the encoder is always the protocol's fixed request
   * for the image; the plugin is the configured binary, run under the
   * one-minute deadline with the encoded request on standard input; and only
   * what it printed is decoded.
   */
  lemma RequestIsFixed(binaryPath: string, image: string, fx: Effects)
    ensures forall e :: e in Fetch(binaryPath, image, fx).calls && e.MarshalCall? ==>
              e.request.kind == "CredentialProviderRequest" &&
              e.request.apiVersion == "credentialprovider.kubelet.k8s.io/v1" &&
              e.request.image == image
    ensures forall e :: e in Fetch(binaryPath, image, fx).calls && e.RunCall? ==>
              e.path == binaryPath && e.deadline == 60 &&
              fx.marshal(NewRequest(image)) == Encoded(e.stdin)
    ensures forall e :: e in Fetch(binaryPath, image, fx).calls && e.UnmarshalCall? ==>
              exists stdin :: fx.run(binaryPath, stdin, 60) == Completed(e.stdout)
  {
  }

  /** A binary that cannot be inspected ends the call before anything else is done. */
  lemma StatFailureStops(binaryPath: string, image: string, fx: Effects)
    requires !fx.stat(binaryPath).StatOk?
    ensures Fetch(binaryPath, image, fx).calls == [StatCall(binaryPath)]
    ensures fx.stat(binaryPath) == NotExist ==>
              Fetch(binaryPath, image, fx).outcome == Failed(BinaryNotFound(binaryPath))
    ensures fx.stat(binaryPath).StatError? ==>
              Fetch(binaryPath, image, fx).outcome == Failed(InspectFailed(binaryPath, fx.stat(binaryPath).cause))
  {
  }

  /** A request that cannot be encoded ends the call before the plugin runs. */
  lemma MarshalFailureStops(binaryPath: string, image: string, fx: Effects, cause: string)
    requires fx.stat(binaryPath) == StatOk
    requires fx.marshal(NewRequest(image)) == EncodeFailed(cause)
    ensures forall e :: e in Fetch(binaryPath, image, fx).calls ==> Stage(e) < 2
    ensures Fetch(binaryPath, image, fx).outcome == Failed(MarshalFailed(cause))
  {
  }

  /** A failed run, the deadline's expiry included, ends the call without decoding anything. */
  lemma RunFailureStops(binaryPath: string, image: string, fx: Effects, data: Bytes, cause: string)
    requires fx.stat(binaryPath) == StatOk
    requires fx.marshal(NewRequest(image)) == Encoded(data)
    requires fx.run(binaryPath, data, PluginTimeout) == Aborted(cause)
    ensures forall e :: e in Fetch(binaryPath, image, fx).calls ==> !e.UnmarshalCall?
    ensures Fetch(binaryPath, image, fx).outcome == Failed(RunFailed(binaryPath, cause))
  {
  }

  /** Output that does not decode gives the decoding error. */
  lemma UnmarshalFailureDecides(binaryPath: string, image: string, fx: Effects, data: Bytes, stdout: Bytes, cause: string)
    requires fx.stat(binaryPath) == StatOk
    requires fx.marshal(NewRequest(image)) == Encoded(data)
    requires fx.run(binaryPath, data, PluginTimeout) == Completed(stdout)
    requires fx.unmarshal(stdout) == DecodeFailed(cause)
    ensures Fetch(binaryPath, image, fx).outcome == Failed(UnmarshalFailed(cause))
  {
  }

  /**
   * A decoded response answers the call exactly when its `auth` map has an
   * entry; an empty or absent map is the "no response" error, never a
   * success with empty credentials.
   */
  lemma AuthDecides(binaryPath: string, image: string, fx: Effects, data: Bytes, stdout: Bytes,
                    response: CredentialProviderResponse)
    requires fx.stat(binaryPath) == StatOk
    requires fx.marshal(NewRequest(image)) == Encoded(data)
    requires fx.run(binaryPath, data, PluginTimeout) == Completed(stdout)
    requires fx.unmarshal(stdout) == Decoded(response)
    ensures response.auth == map[] ==> Fetch(binaryPath, image, fx).outcome == Failed(NoResponse(binaryPath))
    ensures response.auth != map[] ==> Fetch(binaryPath, image, fx).outcome == Answered(response.auth)
  {
  }

  /** A call succeeds exactly when every stage succeeds and the `auth` map has an entry. */
  lemma AnsweredIffAllStagesSucceed(binaryPath: string, image: string, fx: Effects)
    ensures Fetch(binaryPath, image, fx).outcome.Answered? <==>
              fx.stat(binaryPath) == StatOk &&
              fx.marshal(NewRequest(image)).Encoded? &&
              fx.run(binaryPath, fx.marshal(NewRequest(image)).data, PluginTimeout).Completed? &&
              fx.unmarshal(fx.run(binaryPath, fx.marshal(NewRequest(image)).data, PluginTimeout).stdout).Decoded? &&
              fx.unmarshal(fx.run(binaryPath, fx.marshal(NewRequest(image)).data, PluginTimeout).stdout).response.auth != map[]
  {
  }

  /**
   * Every entry of the `auth` map may be the one selected: the selection does
   * not prefer any match key.
   */
  lemma EveryEntrySelectable(auth: map<string, AuthConfig>, key: string)
    requires key in auth
    ensures Selected(auth, auth[key].username, auth[key].password)
  {
    assert auth[key] == AuthConfig(auth[key].username, auth[key].password);
  }

  /** Two entries with different pairs: either pair may be returned. */
  lemma TwoEntriesEitherSelected()
    ensures Selected(map["a" := AuthConfig("u1", "p1"), "b" := AuthConfig("u2", "p2")], "u1", "p1")
    ensures Selected(map["a" := AuthConfig("u1", "p1"), "b" := AuthConfig("u2", "p2")], "u2", "p2")
  {
    var auth := map["a" := AuthConfig("u1", "p1"), "b" := AuthConfig("u2", "p2")];
    EveryEntrySelectable(auth, "a");
    EveryEntrySelectable(auth, "b");
  }

  /** With a single entry in the `auth` map, the selected pair is that entry. */
  lemma SoleEntrySelected(auth: map<string, AuthConfig>, key: string, username: string, password: string)
    requires |auth| == 1 && key in auth && Selected(auth, username, password)
    ensures auth[key] == AuthConfig(username, password)
  {
    var other :| other in auth && auth[other] == AuthConfig(username, password);
    assert |auth.Keys - {key}| == |auth.Keys| - 1 == 0;
    assert other !in auth.Keys - {key};
  }
}
