/** `_ALLOWED_OPTIONS`: for each address family and method, the option names whose
    lines a built `iface` block lists first, in this order. */
module Options {
  import opened Outcomes
  import opened Assoc

  /** A method's entry. Most are tuples of option names; the `ppp` and `wvdial`
      entries are written `( 'provider' )`, which is a parenthesised string and not a
      one-element tuple. */
  datatype Entry = Tuple(names: seq<string>) | Bare(text: string)

  /** The hooks every `inet` method accepts, listed after the method's own options. */
  const GlobalOptions: seq<string> := ["pre-up", "up", "post-up", "pre-down", "down", "post-down"]

  const InetMethods: Table<Entry> := [
    ("global", Tuple(GlobalOptions)),
    ("loopback", Tuple([])),
    ("static", Tuple(["address", "netmask", "broadcast", "network", "metric", "gateway",
                      "pointtopoint", "media", "hwaddress", "mtu"])),
    ("manual", Tuple([])),
    ("dhcp", Tuple(["hostname", "leasehours", "leasetime", "vendor", "client", "hwaddress"])),
    ("bootp", Tuple(["bootfile", "server", "hwaddr"])),
    ("ppp", Bare("provider")),
    ("wvdial", Bare("provider")),
    ("ipv4ll", Tuple([]))
  ]

  /** The families of the `iface` table; `inet` is the only one. */
  const Families: Table<Table<Entry>> := [("inet", InetMethods)]

  /** The ordering of a `mapping` block. */
  const MappingOptions: seq<string> := ["script", "map"]

  /** The methods whose entries are tuples, so that an `iface` block can be built. */
  const TupleMethods: set<string> := {"global", "loopback", "static", "manual", "dhcp", "bootp", "ipv4ll"}

  /** A settings value used as a key: a string, or a list, which cannot be a key. */
  datatype KeyValue = Text(s: string) | List

  /** `_ALLOWED_OPTIONS['iface'][family][method] + _ALLOWED_OPTIONS['iface'][family]['global']`,
      evaluated left to right: the family lookup fails first, then the method (`meth`)
      lookup, then the concatenation of a bare string with the `global` tuple. */
  function IfaceOptions(family: KeyValue, meth: KeyValue): Result<seq<string>> {
    match family
    case List => Err(Unhashable("family"))
    case Text(f) =>
      match Get(Families, f)
      case None => Err(MissingKey(f))
      case Some(methods) =>
        match meth
        case List => Err(Unhashable("method"))
        case Text(m) =>
          match Get(methods, m)
          case None => Err(MissingKey(m))
          case Some(entry) =>
            match entry
            case Bare(_) => Err(NotConcatenable(m))
            case Tuple(names) => Ok(names + Get(methods, "global").value.names)
  }

  lemma InetKeys()
    ensures Keys(InetMethods) == ["global", "loopback", "static", "manual", "dhcp", "bootp", "ppp", "wvdial", "ipv4ll"]
    ensures Get(Families, "inet") == Some(InetMethods)
    ensures Get(InetMethods, "global") == Some(Tuple(GlobalOptions))
  {
  }

  /** An ordering exists exactly for the `inet` family and a method whose entry is a
      tuple, and it always ends with the `global` hooks. */
  lemma IfaceOptionsOk(family: KeyValue, meth: KeyValue)
    ensures IfaceOptions(family, meth).Ok? <==> family == Text("inet") && meth.Text? && meth.s in TupleMethods
    ensures var r := IfaceOptions(family, meth);
      r.Ok? ==> |r.value| >= |GlobalOptions| && r.value[|r.value| - |GlobalOptions|..] == GlobalOptions
  {
    InetKeys();
  }

  /** Which exception each failing lookup raises. */
  lemma IfaceOptionsErrors(family: KeyValue, meth: KeyValue)
    ensures family.List? ==> IfaceOptions(family, meth) == Err(Unhashable("family"))
    ensures family.Text? && family.s != "inet" ==> IfaceOptions(family, meth) == Err(MissingKey(family.s))
    ensures family == Text("inet") && meth.List? ==> IfaceOptions(family, meth) == Err(Unhashable("method"))
    ensures family == Text("inet") && meth.Text? && meth.s in {"ppp", "wvdial"} ==>
      IfaceOptions(family, meth) == Err(NotConcatenable(meth.s))
    ensures family == Text("inet") && meth.Text? && meth.s !in TupleMethods + {"ppp", "wvdial"} ==>
      IfaceOptions(family, meth) == Err(MissingKey(meth.s))
  {
    InetKeys();
  }
}
