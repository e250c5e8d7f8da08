/** Serving rotated TLS material without a restart (internal/server/tls.go). Parsing and
    hashing are parameters; one poller reloads. */
module CertReload {
  import opened Wrappers

  datatype Cert = Cert(der: string)
  datatype Pool = Pool(roots: string)

  /** tls.X509KeyPair with x509.ParseCertificate, CertPool.AppendCertsFromPEM and SHA-256. */
  datatype Crypto = Crypto(pair: (string, string) -> Option<Cert>, pool: string -> Option<Pool>, sha: string -> string)

  /** The bytes of one reading of the files; the CA is empty when none is configured. */
  datatype Material = Material(cert: string, key: string, ca: string)

  /** What reading each file gives at the moment. */
  datatype Files = Files(cert: Option<string>, key: Option<string>, ca: Option<string>)

  datatype Sums = Sums(cert: string, key: string, ca: string)

  /** What the reloader holds behind its lock. */
  datatype Loaded = Loaded(cert: Option<Cert>, pool: Option<Pool>, sums: Sums)

  datatype Outcome = Changed | Unchanged | Broken

  function Read(hasCa: bool, f: Files): Option<Material> {
    if f.cert.None? || f.key.None? || (hasCa && f.ca.None?) then None
    else Some(Material(f.cert.value, f.key.value, if hasCa then f.ca.value else ""))
  }

  function SumsOf(c: Crypto, m: Material): Sums {
    Sums((c.sha)(m.cert), (c.sha)(m.key), (c.sha)(m.ca))
  }

  /** The material is one matching pair, and a CA bundle, if any, with something in it. */
  predicate Usable(c: Crypto, m: Material) {
    (c.pair)(m.cert, m.key).Some? && (m.ca != "" ==> (c.pool)(m.ca).Some?)
  }

  /** Certificate, pool and digests all come from `m`. */
  predicate Serves(c: Crypto, l: Loaded, m: Material) {
    && Usable(c, m) && l.cert == (c.pair)(m.cert, m.key)
    && l.pool == (if m.ca == "" then None else (c.pool)(m.ca))
    && l.sums == SumsOf(c, m)
  }

  function Reloaded(c: Crypto, hasCa: bool, l: Loaded, f: Files): (Loaded, Outcome) {
    match Read(hasCa, f)
    case None => (l, Broken)
    case Some(m) =>
      if l.cert.Some? && l.sums == SumsOf(c, m) then (l, Unchanged)
      else if !Usable(c, m) then (l, Broken)
      else (Loaded((c.pair)(m.cert, m.key), if m.ca == "" then None else (c.pool)(m.ca), SumsOf(c, m)), Changed)
  }

  const TLS12: nat := 0x0303

  datatype Base = Base(minVersion: nat, clientAuth: nat)

  datatype Config = Config(base: Base, certificate: Cert, clientCAs: Option<Pool>)

  class CertReloader {
    const crypto: Crypto
    const hasCa: bool
    var loaded: Loaded
    var base: Base
    ghost var readings: seq<Files>

    /** What is held is what all polls so far come to. */
    ghost predicate Valid()
      reads this
    {
      loaded == Polled(crypto, hasCa, readings)
    }

    /** Where NewCertReloader starts; it fails unless its first Reload succeeds. */
    constructor (crypto: Crypto, hasCa: bool)
      ensures Valid() && this.crypto == crypto && this.hasCa == hasCa && readings == [] && base == Base(TLS12, 0)
    {
      this.crypto, this.hasCa, readings := crypto, hasCa, [];
      loaded, base := Nothing(), Base(TLS12, 0);
    }

    method Reload(files: Files) returns (outcome: Outcome)
      requires Valid()
      modifies this`loaded, this`readings
      ensures Valid() && readings == old(readings) + [files] && outcome == OutcomeOf(crypto, hasCa, readings, |old(readings)|)
    {
      readings := readings + [files];
      assert readings[..|readings| - 1] == old(readings);
      if files.cert.None? || files.key.None? {
        return Broken;
      }
      var caPem := "";
      if hasCa {
        if files.ca.None? {
          return Broken;
        }
        caPem := files.ca.value;
      }
      var sums := Sums((crypto.sha)(files.cert.value), (crypto.sha)(files.key.value), (crypto.sha)(caPem));
      if loaded.cert.Some? && sums == loaded.sums {
        return Unchanged;
      }
      var cert := (crypto.pair)(files.cert.value, files.key.value);
      if cert.None? {
        return Broken;
      }
      var pool: Option<Pool> := None;
      if caPem != "" {
        pool := (crypto.pool)(caPem);
        if pool.None? {
          return Broken;
        }
      }
      loaded := Loaded(cert, pool, sums);
      outcome := Changed;
    }

    /** GetConfigForClient: one look behind the lock. A handshake gets certificate and client
        CAs from the same reading of the files, the last that changed something, and none
        exactly as long as every reading was broken. */
    method GetConfigForClient() returns (r: Option<Config>)
      requires Valid()
      ensures r.None? <==> forall n | 0 <= n < |readings| :: OutcomeOf(crypto, hasCa, readings, n) == Broken
      ensures r.Some? ==> r.value.base == base && exists n: nat | n < |readings| ::
        LastChange(crypto, hasCa, readings, n) && ConfigOf(crypto, r.value, Read(hasCa, readings[n]).value)
    {
      var now := loaded;
      ghost var n := ServedMaterialIsOneReading(crypto, hasCa, readings);
      if now.cert.None? {
        return None;
      }
      r := Some(Config(base, now.cert.value, now.pool));
      assert LastChange(crypto, hasCa, readings, n) && ConfigOf(crypto, r.value, Read(hasCa, readings[n]).value);
    }

    /** BuildTLSConfig: the base that every later handshake starts from. */
    method BuildTlsConfig(minVersion: nat, clientAuth: nat)
      modifies this`base
      ensures base == Base(minVersion, clientAuth)
    {
      base := Base(minVersion, clientAuth);
    }
  }

  function Nothing(): Loaded {
    Loaded(None, None, Sums("", "", ""))
  }

  function Polled(c: Crypto, hasCa: bool, readings: seq<Files>): Loaded {
    if readings == [] then Nothing() else Reloaded(c, hasCa, Polled(c, hasCa, readings[..|readings| - 1]), readings[|readings| - 1]).0
  }

  function OutcomeOf(c: Crypto, hasCa: bool, readings: seq<Files>, n: nat): Outcome
    requires n < |readings|
  {
    Reloaded(c, hasCa, Polled(c, hasCa, readings[..n]), readings[n]).1
  }

  /** Reading number `n` was the last to change what is served. */
  ghost predicate LastChange(c: Crypto, hasCa: bool, readings: seq<Files>, n: nat)
    requires n < |readings|
    ensures LastChange(c, hasCa, readings, n) ==> Read(hasCa, readings[n]).Some?
  {
    && OutcomeOf(c, hasCa, readings, n) == Changed
    && forall m | n < m < |readings| :: OutcomeOf(c, hasCa, readings, m) != Changed
  }

  /** The configuration is made of the one pair and the client CAs of `m`. */
  predicate ConfigOf(c: Crypto, config: Config, m: Material) {
    && Usable(c, m) && Some(config.certificate) == (c.pair)(m.cert, m.key)
    && config.clientCAs == (if m.ca == "" then None else (c.pool)(m.ca))
  }

  /** After any number of polls the certificate, the client CAs and the digests being served
      come from one single reading: the last one that changed something. */
  lemma {:induction false} ServedMaterialIsOneReading(c: Crypto, hasCa: bool, readings: seq<Files>) returns (n: nat)
    ensures Polled(c, hasCa, readings).cert.Some? ==>
      && n < |readings| && LastChange(c, hasCa, readings, n)
      && Serves(c, Polled(c, hasCa, readings), Read(hasCa, readings[n]).value)
    ensures Polled(c, hasCa, readings).cert.None? ==>
      forall m | 0 <= m < |readings| :: OutcomeOf(c, hasCa, readings, m) == Broken
  {
    n := 0;
    if readings != [] {
      var init, last := readings[..|readings| - 1], |readings| - 1;
      n := ServedMaterialIsOneReading(c, hasCa, init);
      forall m | 0 <= m < |init| ensures OutcomeOf(c, hasCa, readings, m) == OutcomeOf(c, hasCa, init, m) {
        assert readings[..m] == init[..m];
      }
      if OutcomeOf(c, hasCa, readings, last) == Changed {
        n := last;
      }
    }
  }

  predicate NoCollision(c: Crypto, m: Material, k: Material) {
    SumsOf(c, m) == SumsOf(c, k) ==> m == k
  }

  /** A poll either leaves everything as it was and says so, or afterwards serves what the
      files hold now: skipping on equal digests is right as long as digests do not collide. */
  lemma PollServesTheFiles(c: Crypto, hasCa: bool, readings: seq<Files>, now: Files)
    requires forall a, b: Files :: Read(hasCa, a).Some? && Read(hasCa, b).Some? ==> NoCollision(c, Read(hasCa, a).value, Read(hasCa, b).value)
    ensures var before := Polled(c, hasCa, readings);
      var (after, outcome) := Reloaded(c, hasCa, before, now);
      && (outcome == Changed || after == before)
      && (outcome != Broken <==> Read(hasCa, now).Some? && Usable(c, Read(hasCa, now).value))
      && (outcome != Broken ==> Serves(c, after, Read(hasCa, now).value))
  {
    var n := ServedMaterialIsOneReading(c, hasCa, readings);
    var before := Polled(c, hasCa, readings);
    if before.cert.Some? && Read(hasCa, now).Some? {
      assert NoCollision(c, Read(hasCa, readings[n]).value, Read(hasCa, now).value);
    }
  }

  /** Reading the same files again changes nothing and says so, whatever was held before. */
  lemma SameFilesAreNoChange(c: Crypto, hasCa: bool, l: Loaded, files: Files)
    ensures var (held, outcome) := Reloaded(c, hasCa, l, files);
      outcome != Broken ==> Reloaded(c, hasCa, held, files) == (held, Unchanged)
    ensures var (held, outcome) := Reloaded(c, hasCa, l, files);
      outcome == Unchanged ==> held == l && l.cert.Some?
  {
  }
}
