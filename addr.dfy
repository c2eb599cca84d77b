/** Network addresses of the form `network://addr` (utils/addr.go): parsing
    from a URL, formatting, and the two command-line flag values built on
    them, a single address and an address list. */
module Addr {
  import opened Wrappers
  import opened Strings

  /** What `url.Parse` reports about its input, reduced to the fields the
      dispatch reads. */
  datatype Url = Url(scheme: string, host: string, path: string)

  /** The error `url.Parse` returns; its content is not interpreted. */
  datatype UrlError = UrlError(message: string)

  /** `url.Parse` is a library call the model does not look into: every
      operation that parses takes it as a parameter. */
  type UrlParser = string -> Result<Url, UrlError>

  /** The two errors `ParseAddr` can return, with the values its messages
      are formatted from. */
  datatype AddrError =
    | ParseFailed(input: string, cause: UrlError)
    | UnsupportedScheme(input: string, scheme: string)

  datatype NetAddr = NetAddr(addr: string, network: string) {
    /** `(*NetAddr).String`: the network, "://", then the address. */
    function String(): string
    {
      network + "://" + addr
    }
  }

  /** The address is recoverable from its text whenever the network has
      no colon: the first colon ends the network. */
  lemma FormatInjective(a: NetAddr, b: NetAddr)
    requires ':' !in a.network && ':' !in b.network
    requires a.String() == b.String()
    ensures a == b
  {
    var s := a.String();
    var m, n := |a.network|, |b.network|;
    assert s[m] == ':';
    assert s[n] == ':';
    if m != n {
      assert false;
    }
    assert a.network == s[..m] == b.network;
    assert a.addr == s[m + 3..] == b.addr;
  }

  /** `ParseAddr`: the scheme of the parsed URL selects the network, and
      with it whether the host or the path is the address. */
  function ParseAddr(a: string, urlParse: UrlParser): (r: Result<NetAddr, AddrError>)
    ensures urlParse(a).Failure? ==> r == Failure(ParseFailed(a, urlParse(a).error))
    ensures urlParse(a).Success? && urlParse(a).value.scheme == "tcp" ==>
              r == Success(NetAddr(urlParse(a).value.host, "tcp"))
    ensures urlParse(a).Success? && urlParse(a).value.scheme == "unix" ==>
              r == Success(NetAddr(urlParse(a).value.path, "unix"))
    ensures urlParse(a).Success? && urlParse(a).value.scheme !in {"tcp", "unix"} ==>
              r == Failure(UnsupportedScheme(a, urlParse(a).value.scheme))
    ensures r.Success? <==> urlParse(a).Success? && urlParse(a).value.scheme in {"tcp", "unix"}
    ensures r.Success? ==> r.value.network in {"tcp", "unix"}
  {
    match urlParse(a)
    case Failure(err) => Failure(ParseFailed(a, err))
    case Success(u) =>
      if u.scheme == "tcp" then Success(NetAddr(u.host, u.scheme))
      else if u.scheme == "unix" then Success(NetAddr(u.path, u.scheme))
      else Failure(UnsupportedScheme(a, u.scheme))
  }

  /** Two successfully parsed addresses print the same only if they are
      the same address. */
  lemma ParsedAddrsFormatDistinctly(a: string, b: string, urlParse: UrlParser)
    requires ParseAddr(a, urlParse).Success? && ParseAddr(b, urlParse).Success?
    requires ParseAddr(a, urlParse).value.String() == ParseAddr(b, urlParse).value.String()
    ensures ParseAddr(a, urlParse).value == ParseAddr(b, urlParse).value
  {
    var x, y := ParseAddr(a, urlParse).value, ParseAddr(b, urlParse).value;
    assert x.network == "tcp" || x.network == "unix";
    assert y.network == "tcp" || y.network == "unix";
    FormatInjective(x, y);
  }

  /** A `NetAddr` variable seen through the `NetAddrVal` flag type: Go
      converts the caller's `*NetAddr` into a `*NetAddrVal`, so both names
      denote this one object. */
  class NetAddrVal {
    var addr: string
    var network: string

    /** A fresh, zero-valued `NetAddr` variable. */
    constructor ()
      ensures addr == "" && network == ""
    {
      addr, network := "", "";
    }

    /** `Get`: the current value as a `NetAddr`. */
    function Get(): (v: NetAddr)
      reads this
      ensures v.addr == addr && v.network == network
    {
      NetAddr(addr, network)
    }

    /** `(*NetAddrVal).String`: formats the current value as a `NetAddr`. */
    function String(): (s: string)
      reads this
      ensures s == network + "://" + addr
    {
      Get().String()
    }

    /** `Set`: on a successful parse both fields take the parsed values;
        on an error the value is left exactly as it was. */
    method Set(s: string, urlParse: UrlParser) returns (err: Option<AddrError>)
      modifies this
      ensures ParseAddr(s, urlParse).Success? ==> err == None && Get() == ParseAddr(s, urlParse).value
      ensures ParseAddr(s, urlParse).Failure? ==>
                err == Some(ParseAddr(s, urlParse).error) && addr == old(addr) && network == old(network)
    {
      var v := ParseAddr(s, urlParse);
      if v.Failure? {
        return Some(v.error);
      }
      addr := v.value.addr;
      network := v.value.network;
      return None;
    }
  }

  /** `NewNetAddrVal`: stores the default into the target variable and
      returns that same variable as the flag value. */
  method NewNetAddrVal(defaultVal: NetAddr, val: NetAddrVal) returns (v: NetAddrVal)
    modifies val
    ensures v == val && v.Get() == defaultVal
  {
    val.addr, val.network := defaultVal.addr, defaultVal.network;
    v := val;
  }

  /** The text of each address, in list order. */
  function FormatAll(addrs: seq<NetAddr>): (texts: seq<string>)
    ensures |texts| == |addrs|
    ensures forall i :: 0 <= i < |addrs| ==> texts[i] == addrs[i].String()
    decreases |addrs|
  {
    if addrs == [] then []
    else FormatAll(addrs[..|addrs| - 1]) + [addrs[|addrs| - 1].String()]
  }

  /** The caller's `[]NetAddr` variable that a `NetAddrList` points to. */
  class AddrSlice {
    var items: seq<NetAddr>

    constructor (items: seq<NetAddr>)
      ensures this.items == items
    {
      this.items := items;
    }
  }

  /** A flag value that accumulates addresses into the caller's slice. */
  class NetAddrList {
    const addrs: AddrSlice

    /** The struct literal `&NetAddrList{addrs: addrs}`. */
    constructor (addrs: AddrSlice)
      ensures this.addrs == addrs
    {
      this.addrs := addrs;
    }

    /** `Set`: appends the parsed address at the end on success, keeping
        the earlier entries and their order; on an error the slice is left
        as it was. */
    method Set(s: string, urlParse: UrlParser) returns (err: Option<AddrError>)
      modifies addrs
      ensures ParseAddr(s, urlParse).Success? ==>
                err == None && addrs.items == old(addrs.items) + [ParseAddr(s, urlParse).value]
      ensures ParseAddr(s, urlParse).Failure? ==>
                err == Some(ParseAddr(s, urlParse).error) && addrs.items == old(addrs.items)
    {
      var v := ParseAddr(s, urlParse);
      if v.Failure? {
        return Some(v.error);
      }
      addrs.items := addrs.items + [v.value];
      return None;
    }

    /** `String`: the entries' texts, in list order, separated by single
        spaces; an empty list gives the empty string. */
    method String() returns (s: string)
      ensures s == Join(FormatAll(addrs.items), " ")
      ensures addrs.items == [] ==> s == ""
    {
      var items := addrs.items;
      var ns: seq<string> := [];
      for i := 0 to |items|
        invariant ns == FormatAll(items[..i])
      {
        assert items[..i + 1][..i] == items[..i];
        ns := ns + [items[i].String()];
      }
      assert items[..|items|] == items;
      s := Join(ns, " ");
    }
  }

  /** `NewNetAddrList`: a list flag over the given slice variable. */
  method NewNetAddrList(addrs: AddrSlice) returns (nl: NetAddrList)
    ensures fresh(nl) && nl.addrs == addrs
  {
    nl := new NetAddrList(addrs);
  }

  /** What a successful `NetAddrList.Set` does to `NetAddrList.String`:
      the new entry's text is added at the end, after a space unless the
      list was empty. */
  lemma ListStringAfterAppend(items: seq<NetAddr>, v: NetAddr)
    ensures Join(FormatAll(items + [v]), " ")
         == if items == [] then v.String() else Join(FormatAll(items), " ") + " " + v.String()
  {
    assert (items + [v])[..|items|] == items;
    if items != [] {
      JoinAppend(FormatAll(items), v.String(), " ");
    }
  }

  /** The text of a non-empty list gives back every entry's text, in
      order, when no entry's text holds a space. */
  lemma ListStringSplits(items: seq<NetAddr>)
    requires items != []
    requires forall i :: 0 <= i < |items| ==> ' ' !in items[i].String()
    ensures Split(Join(FormatAll(items), " "), ' ') == FormatAll(items)
  {
    SplitJoin(FormatAll(items), ' ');
  }
}
