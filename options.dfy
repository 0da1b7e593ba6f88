/**
 * The recorder's options and their per-host selection: options given as
 * comma-separated lists on the command line are lists, the others keep
 * their scalar defaults, and one option set is built per server host.
 */
module RecorderOptions {
  import opened Wrappers

  /** An option value: a scalar default, or the list a comma-separated argument produced. */
  datatype Field<T> = Scalar(value: T) | List(items: seq<T>)

  /**
   * The options the core reads. Frequencies are in Hz and cutoffs,
   * threshold and AGC gain are integers.
   */
  datatype Options = Options(
    serverHost: Field<string>,
    serverPort: Field<int>,
    password: Field<string>,
    frequency: Field<int>,
    agcGain: Field<Option<int>>,
    filename: Field<string>,
    station: Field<Option<string>>,
    user: Field<string>,
    status: int,
    modulation: string,
    lpCut: int,
    hpCut: int,
    compression: bool,
    thresh: Option<int>,
    dt: int,
    dir: Option<string>,
    kiwiWav: bool)

  /** Lists come from str.split, which never returns an empty list. */
  predicate NonEmpty<T>(f: Field<T>)
  {
    f.List? ==> |f.items| >= 1
  }

  predicate WellFormed(o: Options)
  {
    NonEmpty(o.serverHost) && NonEmpty(o.serverPort) && NonEmpty(o.password) && NonEmpty(o.frequency)
    && NonEmpty(o.agcGain) && NonEmpty(o.filename) && NonEmpty(o.station) && NonEmpty(o.user)
  }

  /** One host's option set: every per-host field is a scalar. */
  predicate Single(o: Options)
  {
    o.serverHost.Scalar? && o.serverPort.Scalar? && o.password.Scalar? && o.frequency.Scalar?
    && o.agcGain.Scalar? && o.filename.Scalar? && o.station.Scalar? && o.user.Scalar?
  }

  /** _sel_entry: element min(i, len-1) of a list; a scalar as it is. */
  function SelEntry<T>(i: nat, f: Field<T>): Field<T>
    requires NonEmpty(f)
  {
    match f
    case Scalar(_) => f
    case List(items) => Scalar(items[if i < |items| then i else |items| - 1])
  }

  /** The hosts one option set is built for: each list element, or the one scalar host. */
  function Hosts(f: Field<string>): seq<string>
  {
    match f
    case Scalar(h) => [h]
    case List(items) => items
  }

  /**
   * What enumerate() iterates as written: for a scalar host (the default
   * 'localhost' is a string, not a list) that is its characters.
   */
  function HostsAsWritten(f: Field<string>): seq<string>
  {
    match f
    case Scalar(h) => seq(|h|, k requires 0 <= k < |h| => [h[k]])
    case List(items) => items
  }

  /** The option set for host number i. */
  function ForHost(o: Options, i: nat, host: string): Options
    requires WellFormed(o)
  {
    o.(serverHost := Scalar(host), status := 0,
       serverPort := SelEntry(i, o.serverPort), password := SelEntry(i, o.password),
       frequency := SelEntry(i, o.frequency), agcGain := SelEntry(i, o.agcGain),
       filename := SelEntry(i, o.filename), station := SelEntry(i, o.station), user := SelEntry(i, o.user))
  }

  /** options_cross_product over the hosts as intended. */
  function CrossProduct(o: Options): seq<Options>
    requires WellFormed(o)
  {
    var hosts := Hosts(o.serverHost);
    seq(|hosts|, i requires 0 <= i < |hosts| => ForHost(o, i, hosts[i]))
  }

  /** options_cross_product as written, iterating a scalar host character by character. */
  function CrossProductAsWritten(o: Options): seq<Options>
    requires WellFormed(o)
  {
    var hosts := HostsAsWritten(o.serverHost);
    seq(|hosts|, i requires 0 <= i < |hosts| => ForHost(o, i, hosts[i]))
  }

  /** The element of a per-host field that host i gets. */
  predicate Selected<T(==)>(f: Field<T>, i: nat, r: Field<T>)
  {
    match f
    case Scalar(_) => r == f
    case List(items) =>
      r.Scalar? && |items| >= 1 &&
      (if i < |items| then r.value == items[i] else r.value == items[|items| - 1])
  }

  /**
   * One single-host option set per host, in order, each with status 0;
   * list fields give host i their element i, or their last element when
   * shorter; scalar fields and all other options are copied unchanged.
   */
  lemma CrossProductSelects(o: Options)
    requires WellFormed(o)
    ensures var r := CrossProduct(o);
            && |r| == |Hosts(o.serverHost)|
            && forall i :: 0 <= i < |r| ==>
                 && Single(r[i])
                 && r[i].serverHost == Scalar(Hosts(o.serverHost)[i])
                 && r[i].status == 0
                 && Selected(o.serverPort, i, r[i].serverPort) && Selected(o.password, i, r[i].password)
                 && Selected(o.frequency, i, r[i].frequency) && Selected(o.agcGain, i, r[i].agcGain)
                 && Selected(o.filename, i, r[i].filename) && Selected(o.station, i, r[i].station)
                 && Selected(o.user, i, r[i].user)
                 && r[i].(serverHost := o.serverHost, status := o.status, serverPort := o.serverPort,
                          password := o.password, frequency := o.frequency, agcGain := o.agcGain,
                          filename := o.filename, station := o.station, user := o.user) == o
  {
  }

  /** With every field a scalar, each host's set differs from the input only in host and status. */
  lemma ScalarOptionsCopied(o: Options, i: nat, host: string)
    requires WellFormed(o) && Single(o)
    ensures ForHost(o, i, host) == o.(serverHost := Scalar(host), status := 0)
  {
  }

  /**
   * The default host 'localhost' is a scalar string: as written it yields
   * nine option sets for the hosts "l", "o", "c", ...; as intended, one.
   */
  lemma DefaultHostAsWritten(o: Options)
    requires WellFormed(o) && o.serverHost == Scalar("localhost")
    ensures |CrossProductAsWritten(o)| == 9 && CrossProductAsWritten(o)[0].serverHost == Scalar("l")
    ensures |CrossProduct(o)| == 1 && CrossProduct(o)[0].serverHost == Scalar("localhost")
  {
  }

  /** For a list of hosts both agree. */
  lemma ListHostsAgree(o: Options)
    requires WellFormed(o) && o.serverHost.List?
    ensures CrossProductAsWritten(o) == CrossProduct(o)
  {
  }
}
