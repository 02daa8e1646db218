/** SNMP credentials and devices: loading them, resolving a device's credentials, configuring its client. */
module SnmpConfig {
  import opened Text
  import opened Wrappers
  import opened Collect

  datatype Auth = Auth(
    version: string, community: string, securityLevel: string, username: string,
    authProtocol: string, authPassword: string, privProtocol: string, privPassword: string)

  datatype Credential = Credential(name: string, auth: Auth)

  /** A device refers to a credential by name ("" for none) or carries its own. */
  datatype Device = Device(name: string, host: string, port: int, credential: string, auth: Option<Auth>)

  datatype File = File(credentials: seq<Credential>, devices: seq<Device>)

  datatype Version = V2c | V3

  datatype Level = NoAuthNoPriv | AuthNoPriv | AuthPriv

  function Normal(s: string): string
  {
    ToLower(TrimSpace(s))
  }

  function VersionOf(s: string): Option<Version>
  {
    if Normal(s) == "2c" then Some(V2c) else if Normal(s) == "3" then Some(V3) else None
  }

  /** snmpMsgFlags: no level means the lowest. */
  function LevelOf(s: string): Option<Level>
  {
    var level := Normal(s);
    if level == "" || level == "noauthnopriv" then Some(NoAuthNoPriv)
    else if level == "authnopriv" then Some(AuthNoPriv)
    else if level == "authpriv" then Some(AuthPriv)
    else None
  }

  /** validateSNMPAuth */
  predicate IsValidAuth(a: Auth)
  {
    match VersionOf(a.version)
    case Some(V2c) => a.community != ""
    case Some(V3) =>
      && a.username != ""
      && LevelOf(a.securityLevel).Some?
      && (LevelOf(a.securityLevel).value != NoAuthNoPriv ==> a.authPassword != "")
      && (LevelOf(a.securityLevel).value == AuthPriv ==> a.privPassword != "")
    case None => false
  }

  // ---------- Loading ----------

  const DEFAULT_PORT := 161

  datatype Store = Store(credentials: map<string, Auth>, devices: map<string, Device>)

  /** A device that can be added: named, addressed, with exactly one kind of credentials, and those in order. */
  predicate IsGoodDevice(d: Device, credentials: map<string, Auth>)
  {
    && d.name != "" && d.host != ""
    && (d.credential != "") != d.auth.Some?
    && (d.credential != "" ==> d.credential in credentials)
    && (d.auth.Some? ==> IsValidAuth(d.auth.value))
  }

  /** Every stored credential is valid, and every device has exactly one kind, which resolves. */
  ghost predicate IsConsistent(s: Store)
  {
    && (forall n | n in s.credentials :: IsValidAuth(s.credentials[n]))
    && forall n | n in s.devices :: s.devices[n].name == n && IsGoodDevice(s.devices[n], s.credentials)
  }

  function CredentialNames(cs: seq<Credential>): (names: seq<string>)
    ensures |names| == |cs|
  {
    seq(|cs|, i requires 0 <= i < |cs| => cs[i].name)
  }

  function CredentialAuths(cs: seq<Credential>): (auths: seq<Auth>)
    ensures |auths| == |cs|
  {
    seq(|cs|, i requires 0 <= i < |cs| => cs[i].auth)
  }

  function CredentialStore(cs: seq<Credential>): map<string, Auth>
  {
    Fold(CredentialNames(cs), CredentialAuths(cs), map[])
  }

  predicate AllValid(cs: seq<Credential>)
  {
    cs == [] || (AllValid(cs[..|cs| - 1]) && cs[|cs| - 1].name != "" && IsValidAuth(cs[|cs| - 1].auth))
  }

  lemma {:induction false} AllValidMeans(cs: seq<Credential>)
    ensures AllValid(cs) <==> forall i | 0 <= i < |cs| :: cs[i].name != "" && IsValidAuth(cs[i].auth)
  {
    if cs != [] {
      AllValidMeans(cs[..|cs| - 1]);
      assert forall i | 0 <= i < |cs| - 1 :: cs[..|cs| - 1][i] == cs[i];
    }
  }

  /** Every credential is named and valid, and no two share a name. */
  ghost predicate CredentialsAreGood(cs: seq<Credential>)
  {
    AreNew(CredentialNames(cs), {}) && AllValid(cs)
  }

  /** The device as stored: a missing port is the SNMP port. */
  function Addressed(d: Device): Device
  {
    if d.port == 0 then d.(port := DEFAULT_PORT) else d
  }

  function DeviceNames(ds: seq<Device>): (names: seq<string>)
    ensures |names| == |ds|
  {
    seq(|ds|, i requires 0 <= i < |ds| => ds[i].name)
  }

  function AddressedAll(ds: seq<Device>): (stored: seq<Device>)
    ensures |stored| == |ds|
  {
    seq(|ds|, i requires 0 <= i < |ds| => Addressed(ds[i]))
  }

  function DeviceStore(ds: seq<Device>): map<string, Device>
  {
    Fold(DeviceNames(ds), AddressedAll(ds), map[])
  }

  predicate AllGood(ds: seq<Device>, credentials: map<string, Auth>)
  {
    ds == [] || (AllGood(ds[..|ds| - 1], credentials) && IsGoodDevice(ds[|ds| - 1], credentials))
  }

  lemma {:induction false} AllGoodMeans(ds: seq<Device>, credentials: map<string, Auth>)
    ensures AllGood(ds, credentials) <==> forall i | 0 <= i < |ds| :: IsGoodDevice(ds[i], credentials)
  {
    if ds != [] {
      AllGoodMeans(ds[..|ds| - 1], credentials);
      assert forall i | 0 <= i < |ds| - 1 :: ds[..|ds| - 1][i] == ds[i];
    }
  }

  /** Every device is good, and no two share a name. */
  ghost predicate DevicesAreGood(ds: seq<Device>, credentials: map<string, Auth>)
  {
    AreNew(DeviceNames(ds), {}) && AllGood(ds, credentials)
  }

  /** The checks on one credential: it has a name, a new one, and its values are in order. */
  method CheckCredential(c: Credential, names: set<string>) returns (ok: bool)
    ensures ok <==> c.name != "" && c.name !in names && IsValidAuth(c.auth)
  {
    if c.name == "" {
      return false;
    }
    if c.name in names {
      return false;
    }
    return IsValidAuth(c.auth);
  }

  lemma ValidTurn(cs: seq<Credential>, i: nat)
    requires i < |cs|
    ensures AllValid(cs[..i + 1]) <==> AllValid(cs[..i]) && cs[i].name != "" && IsValidAuth(cs[i].auth)
    ensures AllValid(cs) ==> AllValid(cs[..i + 1])
  {
    assert cs[..i + 1][..i] == cs[..i];
    AllValidMeans(cs);
    AllValidMeans(cs[..i + 1]);
  }

  method LoadCredentials(cs: seq<Credential>) returns (r: Result<map<string, Auth>>)
    ensures r.Ok? <==> CredentialsAreGood(cs)
    ensures r.Ok? ==> r.value == CredentialStore(cs)
  {
    var creds: map<string, Auth> := map[];
    ghost var names, auths := CredentialNames(cs), CredentialAuths(cs);
    for i := 0 to |cs|
      invariant AreNew(names[..i], {}) && creds == Fold(names[..i], auths[..i], map[])
      invariant AllValid(cs[..i])
    {
      FoldTurn(names, auths, i, {});
      ValidTurn(cs, i);
      assert names[i] == cs[i].name && auths[i] == cs[i].auth;
      var ok := CheckCredential(cs[i], creds.Keys);
      if !ok {
        return Err;
      }
      creds := creds[cs[i].name := cs[i].auth];
    }
    assert names[..|cs|] == names && auths[..|cs|] == auths && cs[..|cs|] == cs;
    return Ok(creds);
  }

  /** The checks on one device: it has a name, a new one, a host, and one kind of credentials, which are in order. */
  method CheckDevice(d: Device, devices: set<string>, creds: map<string, Auth>) returns (r: Result<Device>)
    ensures r.Ok? <==> IsGoodDevice(d, creds) && d.name !in devices
    ensures r.Ok? ==> r.value == Addressed(d)
  {
    if d.name == "" {
      return Err;
    }
    if d.name in devices {
      return Err;
    }
    if d.host == "" {
      return Err;
    }
    var stored := d;
    if d.port == 0 {
      stored := d.(port := DEFAULT_PORT);
    }
    var hasCred, hasAuth := d.credential != "", d.auth.Some?;
    if hasCred == hasAuth {
      return Err;
    }
    if hasCred {
      if d.credential !in creds {
        return Err;
      }
    } else if !IsValidAuth(d.auth.value) {
      return Err;
    }
    return Ok(stored);
  }

  lemma GoodTurn(ds: seq<Device>, creds: map<string, Auth>, i: nat)
    requires i < |ds|
    ensures AllGood(ds[..i + 1], creds) <==> AllGood(ds[..i], creds) && IsGoodDevice(ds[i], creds)
    ensures AllGood(ds, creds) ==> AllGood(ds[..i + 1], creds)
  {
    assert ds[..i + 1][..i] == ds[..i];
    AllGoodMeans(ds, creds);
    AllGoodMeans(ds[..i + 1], creds);
  }

  method LoadDevices(ds: seq<Device>, creds: map<string, Auth>) returns (r: Result<map<string, Device>>)
    ensures r.Ok? <==> DevicesAreGood(ds, creds)
    ensures r.Ok? ==> r.value == DeviceStore(ds)
  {
    var devs: map<string, Device> := map[];
    ghost var names, stored := DeviceNames(ds), AddressedAll(ds);
    for i := 0 to |ds|
      invariant AreNew(names[..i], {}) && devs == Fold(names[..i], stored[..i], map[])
      invariant AllGood(ds[..i], creds)
    {
      FoldTurn(names, stored, i, {});
      GoodTurn(ds, creds, i);
      assert names[i] == ds[i].name && stored[i] == Addressed(ds[i]);
      var checked := CheckDevice(ds[i], devs.Keys, creds);
      if checked.Err? {
        return Err;
      }
      devs := devs[ds[i].name := checked.value];
    }
    assert names[..|ds|] == names && stored[..|ds|] == stored && ds[..|ds|] == ds;
    return Ok(devs);
  }

  /** What reading snmp.yaml can give. A file that does not exist is an empty one. */
  datatype Source = NoFile | Unreadable | Decoded(file: File)

  ghost predicate CanLoad(src: Source)
  {
    match src
    case NoFile => true
    case Unreadable => false
    case Decoded(f) => CredentialsAreGood(f.credentials) && DevicesAreGood(f.devices, CredentialStore(f.credentials))
  }

  function Loaded(src: Source): Store
  {
    match src
    case Decoded(f) => Store(CredentialStore(f.credentials), DeviceStore(f.devices))
    case _ => Store(map[], map[])
  }

  /** loadSNMP */
  method LoadSNMP(src: Source) returns (r: Result<Store>)
    ensures r.Ok? <==> CanLoad(src)
    ensures r.Ok? ==> r.value == Loaded(src)
  {
    match src {
      case NoFile => r := Ok(Store(map[], map[]));
      case Unreadable => r := Err;
      case Decoded(f) =>
        var creds := LoadCredentials(f.credentials);
        if creds.Err? {
          return Err;
        }
        var devs := LoadDevices(f.devices, creds.value);
        if devs.Err? {
          return Err;
        }
        r := Ok(Store(creds.value, devs.value));
    }
  }

  /** Whatever loads is consistent. */
  lemma LoadedIsConsistent(src: Source)
    requires CanLoad(src)
    ensures IsConsistent(Loaded(src))
  {
    if src.Decoded? {
      var cs, ds := src.file.credentials, src.file.devices;
      StoredCredentialsAreValid(cs);
      StoredDevicesAreGood(ds, CredentialStore(cs));
    }
  }

  lemma StoredCredentialsAreValid(cs: seq<Credential>)
    requires CredentialsAreGood(cs)
    ensures forall n | n in CredentialStore(cs) :: IsValidAuth(CredentialStore(cs)[n])
  {
    var names, auths := CredentialNames(cs), CredentialAuths(cs);
    FoldAdds(names, auths, map[]);
    AllValidMeans(cs);
    forall n | n in CredentialStore(cs) ensures IsValidAuth(CredentialStore(cs)[n]) {
      var i :| 0 <= i < |cs| && names[i] == n;
    }
  }

  lemma StoredDevicesAreGood(ds: seq<Device>, creds: map<string, Auth>)
    requires DevicesAreGood(ds, creds)
    ensures forall n | n in DeviceStore(ds) :: DeviceStore(ds)[n].name == n && IsGoodDevice(DeviceStore(ds)[n], creds)
  {
    var names, stored := DeviceNames(ds), AddressedAll(ds);
    FoldAdds(names, stored, map[]);
    AllGoodMeans(ds, creds);
    forall n | n in DeviceStore(ds) ensures DeviceStore(ds)[n].name == n && IsGoodDevice(DeviceStore(ds)[n], creds) {
      var i :| 0 <= i < |ds| && names[i] == n;
      assert IsGoodDevice(ds[i], creds);
    }
  }

  // ---------- Resolving and configuring ----------

  /** ResolveSNMPAuth */
  function Resolve(s: Store, device: string): Option<Auth>
  {
    if device !in s.devices then None
    else
      var d := s.devices[device];
      if d.credential != "" then
        if d.credential in s.credentials then Some(s.credentials[d.credential]) else None
      else d.auth
  }

  datatype AuthProtocol = NoAuth | MD5 | SHA | SHA224 | SHA256 | SHA384 | SHA512

  datatype PrivProtocol = NoPriv | DES | AES | AES192 | AES256

  function AuthProtocolOf(p: string): Option<AuthProtocol>
  {
    match ToUpper(TrimSpace(p))
    case "" => Some(NoAuth)
    case "MD5" => Some(MD5)
    case "SHA" => Some(SHA)
    case "SHA224" => Some(SHA224)
    case "SHA256" => Some(SHA256)
    case "SHA384" => Some(SHA384)
    case "SHA512" => Some(SHA512)
    case _ => None
  }

  function PrivProtocolOf(p: string): Option<PrivProtocol>
  {
    match ToUpper(TrimSpace(p))
    case "" => Some(NoPriv)
    case "DES" => Some(DES)
    case "AES" => Some(AES)
    case "AES128" => Some(AES)
    case "AES192" => Some(AES192)
    case "AES256" => Some(AES256)
    case _ => None
  }

  datatype Client =
    | Client2c(community: string)
    | Client3(level: Level, user: string, auth: AuthProtocol, authPass: string, priv: PrivProtocol, privPass: string)

  /** buildGoSNMP, as far as the credentials go: protocols the level needs have defaults. */
  function BuildClient(a: Auth): Result<Client>
  {
    match VersionOf(a.version)
    case Some(V2c) => Ok(Client2c(a.community))
    case None => Err
    case Some(V3) =>
      var level, auth, priv := LevelOf(a.securityLevel), AuthProtocolOf(a.authProtocol), PrivProtocolOf(a.privProtocol);
      if level.None? || auth.None? || priv.None? then Err
      else
        Ok(Client3(level.value, a.username,
                   if auth.value == NoAuth && level.value != NoAuthNoPriv then SHA else auth.value, a.authPassword,
                   if priv.value == NoPriv && level.value == AuthPriv then AES else priv.value, a.privPassword))
  }

  /** The client can do what its security level asks for. */
  predicate IsUsable(c: Client)
  {
    match c
    case Client2c(community) => community != ""
    case Client3(level, user, auth, authPass, priv, privPass) =>
      && user != ""
      && (level != NoAuthNoPriv ==> auth != NoAuth && authPass != "")
      && (level == AuthPriv ==> priv != NoPriv && privPass != "")
  }

  /** Both protocol names are known. Validation does not look at them. */
  predicate ProtocolsAreKnown(a: Auth)
  {
    AuthProtocolOf(a.authProtocol).Some? && PrivProtocolOf(a.privProtocol).Some?
  }

  /** In a consistent store, credentials resolve for exactly the devices there are, and they are valid. */
  lemma DevicesResolve(s: Store, device: string)
    requires IsConsistent(s)
    ensures Resolve(s, device).Some? <==> device in s.devices
    ensures Resolve(s, device).Some? ==> IsValidAuth(Resolve(s, device).value)
  {
    if device in s.devices {
      assert IsGoodDevice(s.devices[device], s.credentials);
    }
  }

  /**
   * The version and level steps never fail on validated credentials: a client is built exactly when the
   * version is 2c or both protocol names are known, and then it can do what its level asks for.
   */
  lemma ValidAuthBuildsExactly(a: Auth)
    requires IsValidAuth(a)
    ensures BuildClient(a).Ok? <==> VersionOf(a.version) == Some(V2c) || ProtocolsAreKnown(a)
    ensures BuildClient(a).Ok? ==> IsUsable(BuildClient(a).value)
  {
  }

  /** Validated credentials whose client cannot be built: the protocol name is not checked at load. */
  lemma ValidationMissesProtocols() returns (a: Auth)
    ensures IsValidAuth(a) && BuildClient(a).Err?
  {
    a := Auth("3", "", "authpriv", "u", "sha3", "p", "", "q");
    TrimNoop("3", IsSpace);
    TrimNoop("authpriv", IsSpace);
    TrimNoop("sha3", IsSpace);
    assert Normal("3") == "3";
    assert Normal("authpriv") == "authpriv";
    assert ToUpper("sha3") == "SHA3";
  }

  // ---------- Reloading ----------

  /** The configuration manager, as far as SNMP goes. */
  class Manager {
    var store: Store

    constructor ()
      ensures store == Store(map[], map[])
    {
      store := Store(map[], map[]);
    }

    /**
     * reloadResources: every file is loaded before any store is swapped, so a failure in another file
     * (`others` is false) or in this one keeps the old store.
     */
    method Reload(others: bool, src: Source) returns (ok: bool)
      modifies this
      ensures ok <==> others && CanLoad(src)
      ensures store == AfterReload(old(store), others, src)
    {
      if !others {
        return false;
      }
      var r := LoadSNMP(src);
      if r.Err? {
        return false;
      }
      store := r.value;
      return true;
    }
  }

  /** The store after a reload. */
  ghost function AfterReload(s: Store, others: bool, src: Source): Store
  {
    if others && CanLoad(src) then Loaded(src) else s
  }

  /**
   * In every state of every run of reloads, failed ones included, each device resolves to valid
   * credentials, which build a usable client when their protocol names are known.
   */
  lemma {:induction false} DevicesStayUsable(stores: seq<Store>, steps: seq<(bool, Source)>, k: nat, device: string)
    requires |stores| == |steps| + 1 && stores[0] == Store(map[], map[]) && k < |stores|
    requires forall i {:trigger steps[i]} | 0 <= i < |steps| :: stores[i + 1] == AfterReload(stores[i], steps[i].0, steps[i].1)
    ensures IsConsistent(stores[k])
    ensures device in stores[k].devices ==>
              && Resolve(stores[k], device).Some?
              && IsValidAuth(Resolve(stores[k], device).value)
              && (ProtocolsAreKnown(Resolve(stores[k], device).value) ==>
                    BuildClient(Resolve(stores[k], device).value).Ok?
                    && IsUsable(BuildClient(Resolve(stores[k], device).value).value))
  {
    if k > 0 {
      DevicesStayUsable(stores, steps, k - 1, device);
      if steps[k - 1].0 && CanLoad(steps[k - 1].1) {
        LoadedIsConsistent(steps[k - 1].1);
      }
    }
    DevicesResolve(stores[k], device);
    if device in stores[k].devices {
      ValidAuthBuildsExactly(Resolve(stores[k], device).value);
    }
  }

  // ---------- What files and credentials mean ----------

  /** Validation accepts a 2c community, or a version 3 user with the passwords of its level. */
  lemma ValidAuthExactly(a: Auth)
    ensures IsValidAuth(a) <==>
              || (Normal(a.version) == "2c" && a.community != "")
              || (Normal(a.version) == "3" && a.username != ""
                  && (Normal(a.securityLevel) in ["", "noauthnopriv"]
                      || (Normal(a.securityLevel) == "authnopriv" && a.authPassword != "")
                      || (Normal(a.securityLevel) == "authpriv" && a.authPassword != "" && a.privPassword != "")))
  {
  }

  /** A credential of the file is stored under its name. */
  lemma CredentialIsStored(cs: seq<Credential>, c: Credential)
    requires CredentialsAreGood(cs) && c in cs
    ensures c.name in CredentialStore(cs) && CredentialStore(cs)[c.name] == c.auth
  {
    var i :| 0 <= i < |cs| && cs[i] == c;
    FoldHolds(CredentialNames(cs), CredentialAuths(cs), map[], i);
  }

  lemma DeviceIsStored(ds: seq<Device>, d: Device, creds: map<string, Auth>)
    requires DevicesAreGood(ds, creds) && d in ds
    ensures d.name in DeviceStore(ds)
    ensures DeviceStore(ds)[d.name] == if d.port == 0 then d.(port := 161) else d
  {
    var i :| 0 <= i < |ds| && ds[i] == d;
    FoldHolds(DeviceNames(ds), AddressedAll(ds), map[], i);
  }

  /** A loaded device resolves to the credentials the file writes for it: the ones it names, or its own. */
  lemma DevicesResolveAsWritten(f: File, d: Device)
    requires CanLoad(Decoded(f)) && d in f.devices
    ensures d.credential == "" ==> d.auth.Some? && Resolve(Loaded(Decoded(f)), d.name) == d.auth
    ensures d.credential != "" ==>
              exists c :: c in f.credentials && c.name == d.credential && Resolve(Loaded(Decoded(f)), d.name) == Some(c.auth)
  {
    var creds := CredentialStore(f.credentials);
    DeviceIsStored(f.devices, d, creds);
    AllGoodMeans(f.devices, creds);
    var k :| 0 <= k < |f.devices| && f.devices[k] == d;
    assert IsGoodDevice(d, creds);
    if d.credential != "" {
      FoldHas(CredentialNames(f.credentials), CredentialAuths(f.credentials), map[], d.credential);
      var i :| 0 <= i < |f.credentials| && CredentialNames(f.credentials)[i] == d.credential;
      CredentialIsStored(f.credentials, f.credentials[i]);
    }
  }

  function AuthName(p: AuthProtocol): string
  {
    match p
    case NoAuth => ""
    case MD5 => "MD5"
    case SHA => "SHA"
    case SHA224 => "SHA224"
    case SHA256 => "SHA256"
    case SHA384 => "SHA384"
    case SHA512 => "SHA512"
  }

  function PrivName(p: PrivProtocol): string
  {
    match p
    case NoPriv => ""
    case DES => "DES"
    case AES => "AES"
    case AES192 => "AES192"
    case AES256 => "AES256"
  }

  /** A protocol is known by its own name, in any case, and AES also as AES128. */
  lemma ProtocolNames(text: string)
    ensures forall p :: AuthProtocolOf(text) == Some(p) <==> ToUpper(TrimSpace(text)) == AuthName(p)
    ensures forall p :: PrivProtocolOf(text) == Some(p) <==>
                          ToUpper(TrimSpace(text)) == PrivName(p) || (p == AES && ToUpper(TrimSpace(text)) == "AES128")
  {
  }

  /** The client is given the credentials as they are, and a protocol wherever its level needs one. */
  lemma ClientCarriesAuth(a: Auth)
    requires IsValidAuth(a) && BuildClient(a).Ok?
    ensures match BuildClient(a).value
            case Client2c(community) => Normal(a.version) == "2c" && community == a.community
            case Client3(level, user, auth, authPass, priv, privPass) =>
              && Normal(a.version) == "3"
              && user == a.username && authPass == a.authPassword && privPass == a.privPassword
              && (level == AuthPriv <==> Normal(a.securityLevel) == "authpriv")
              && (level == AuthNoPriv <==> Normal(a.securityLevel) == "authnopriv")
              && (AuthProtocolOf(a.authProtocol) != Some(NoAuth) ==> Some(auth) == AuthProtocolOf(a.authProtocol))
              && (AuthProtocolOf(a.authProtocol) == Some(NoAuth) ==> auth == if level == NoAuthNoPriv then NoAuth else SHA)
              && (PrivProtocolOf(a.privProtocol) != Some(NoPriv) ==> Some(priv) == PrivProtocolOf(a.privProtocol))
              && (PrivProtocolOf(a.privProtocol) == Some(NoPriv) ==> priv == if level == AuthPriv then AES else NoPriv)
  {
  }

  ghost predicate AreDistinct(names: seq<string>)
  {
    "" !in names && forall i, j | 0 <= i < j < |names| :: names[i] != names[j]
  }

  /** What a file has to be to load. */
  lemma FileLoadsExactly(f: File)
    ensures CanLoad(Decoded(f)) <==>
              && AreDistinct(CredentialNames(f.credentials)) && AreDistinct(DeviceNames(f.devices))
              && (forall c | c in f.credentials :: IsValidAuth(c.auth))
              && forall d | d in f.devices ::
                   && d.host != ""
                   && if d.credential == "" then d.auth.Some? && IsValidAuth(d.auth.value)
                      else d.auth.None? && exists c :: c in f.credentials && c.name == d.credential
  {
    CredentialsLoadExactly(f.credentials);
    DevicesLoadExactly(f.devices, CredentialStore(f.credentials));
    forall n ensures n in CredentialStore(f.credentials) <==> exists c :: c in f.credentials && c.name == n {
      FoldHas(CredentialNames(f.credentials), CredentialAuths(f.credentials), map[], n);
      NamesOfCredentials(f.credentials);
    }
  }

  lemma CredentialsLoadExactly(cs: seq<Credential>)
    ensures CredentialsAreGood(cs) <==> AreDistinct(CredentialNames(cs)) && forall c | c in cs :: IsValidAuth(c.auth)
  {
    NamesOfCredentials(cs);
    AllValidMeans(cs);
  }

  lemma DevicesLoadExactly(ds: seq<Device>, creds: map<string, Auth>)
    ensures DevicesAreGood(ds, creds) <==>
              && AreDistinct(DeviceNames(ds))
              && forall d | d in ds ::
                   && d.host != ""
                   && if d.credential == "" then d.auth.Some? && IsValidAuth(d.auth.value)
                      else d.auth.None? && d.credential in creds
  {
    AllGoodMeans(ds, creds);
    assert forall i | 0 <= i < |ds| :: DeviceNames(ds)[i] == ds[i].name && ds[i] in ds;
  }

  lemma NamesOfCredentials(cs: seq<Credential>)
    ensures forall n :: n in CredentialNames(cs) <==> exists c :: c in cs && c.name == n
    ensures forall i | 0 <= i < |cs| :: CredentialNames(cs)[i] == cs[i].name && cs[i] in cs
  {
    forall n ensures n in CredentialNames(cs) <==> exists c :: c in cs && c.name == n {
      if n in CredentialNames(cs) {
        var i :| 0 <= i < |cs| && CredentialNames(cs)[i] == n;
        assert cs[i] in cs && cs[i].name == n;
      }
      if c :| c in cs && c.name == n {
        var i :| 0 <= i < |cs| && cs[i] == c;
        assert CredentialNames(cs)[i] == n;
      }
    }
  }
}
