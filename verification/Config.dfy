/** Server configuration, and the fingerprint that keys the sticky store. */
module Config {
  import opened Wrappers
  import opened Selection

  datatype FilterPolicy = Allow | Deny | Require

  datatype StickyReconnect = WithBackoff | FailFast

  /** The hub selection filters of a server. Bandwidth is in bits per second. */
  datatype Filters = Filters(country: Option<string>, city: Option<string>, isp: Option<string>,
                             asn: Option<nat>, minBandwidth: nat,
                             proxy: FilterPolicy, mobile: FilterPolicy, hosting: FilterPolicy)

  datatype Server = Server(port: Port, destinationPeers: Option<seq<DestinationPeerEntry>>,
                           fallbackToDiscovery: bool, sticky: bool, stickyReconnect: StickyReconnect,
                           filters: Filters, maxTotal: nat)
  {
    function Pinned(): seq<DestinationPeerEntry> {
      if destinationPeers.Some? then destinationPeers.value else []
    }

    function PinnedIds(): set<PeerId> {
      set e | e in Pinned() :: e.peerId
    }

    function Fingerprint(): string {
      FilterFingerprint(filters, port)
    }

    predicate Valid() {
      forall e :: e in Pinned() ==> ValidEntry(e)
    }
  }

  function Text(o: Option<string>): string {
    if o.Some? then o.value else ""
  }

  function Digit(n: nat): char
    requires n < 10
  {
    ('0' as int + n) as char
  }

  function Decimal(n: nat): string {
    if n < 10 then [Digit(n)] else Decimal(n / 10) + [Digit(n % 10)]
  }

  function AsnText(asn: Option<nat>): string {
    if asn.Some? then Decimal(asn.value) else ""
  }

  function PolicyText(p: FilterPolicy): string {
    match p
    case Allow => "Allow"
    case Deny => "Deny"
    case Require => "Require"
  }

  /** The three free-text fields, in print order. */
  function Place(f: Filters): string {
    Text(f.country) + ("|" + (Text(f.city) + ("|" + Text(f.isp))))
  }

  function FilterFingerprint(f: Filters, port: Port): string {
    "v2|" + (Decimal(port) + ("|" + Place(f))) + "|" + AsnText(f.asn) + "|" + Decimal(f.minBandwidth)
    + "|" + PolicyText(f.proxy) + "|" + PolicyText(f.mobile) + "|" + PolicyText(f.hosting)
  }

  /** Equal filters, an absent text counting as the empty one. */
  predicate SameFilters(f: Filters, g: Filters) {
    Text(f.country) == Text(g.country) && Text(f.city) == Text(g.city) && Text(f.isp) == Text(g.isp)
    && SameCodes(f, g)
  }

  predicate SameCodes(f: Filters, g: Filters) {
    f.asn == g.asn && f.minBandwidth == g.minBandwidth
    && f.proxy == g.proxy && f.mobile == g.mobile && f.hosting == g.hosting
  }

  function Bars(f: Filters): nat {
    multiset(Text(f.country))['|'] + multiset(Text(f.city))['|'] + multiset(Text(f.isp))['|']
  }

  /** The stored key, field by field: the version, the port, the three texts, the number of the
      autonomous system, the bandwidth floor and the three policies. */
  lemma FingerprintLooksLikeThis()
    ensures FilterFingerprint(Filters(Some("NL"), None, Some("KPN"), Some(42), 7, Allow, Deny, Require), 80)
            == "v2|80|NL||KPN|42|7|Allow|Deny|Require"
  {
    var f := Filters(Some("NL"), None, Some("KPN"), Some(42), 7, Allow, Deny, Require);
    DecimalStep(8, 0);
    DecimalStep(4, 2);
    assert Decimal(80) == "80" && Decimal(42) == "42" && Decimal(7) == "7";
    hide Decimal;
    assert Place(f) == "NL||KPN";
    assert "v2|" + (Decimal(80) + ("|" + Place(f))) == "v2|80|NL||KPN";
    assert "v2|80|NL||KPN" + "|" + AsnText(f.asn) + "|" + Decimal(7) == "v2|80|NL||KPN|42|7";
    hide Place, AsnText;
    assert "v2|80|NL||KPN|42|7" + "|" + "Allow" + "|" + "Deny" + "|" + "Require"
           == "v2|80|NL||KPN|42|7|Allow|Deny|Require";
  }

  lemma DecimalStep(n: nat, digit: nat)
    requires n >= 1 && digit < 10
    ensures Decimal(10 * n + digit) == Decimal(n) + [Digit(digit)]
  {
    assert (10 * n + digit) / 10 == n && (10 * n + digit) % 10 == digit;
  }

  // ---------- printing is injective ----------

  lemma SplitFront(a: string, x: string, b: string, y: string)
    requires '|' !in a && '|' !in b
    requires a + ("|" + x) == b + ("|" + y)
    ensures a == b && x == y
  {
    var s, t := a + ("|" + x), b + ("|" + y);
    assert s[|a|] == '|' && t[|b|] == '|';
    assert forall k :: 0 <= k < |a| ==> s[k] == a[k] != '|';
    assert forall k :: 0 <= k < |b| ==> t[k] == b[k] != '|';
    assert a == s[..|a|] && b == t[..|b|] && x == s[|a| + 1..] && y == t[|b| + 1..];
  }

  lemma SplitBack(x: string, a: string, y: string, b: string)
    requires '|' !in a && '|' !in b
    requires x + "|" + a == y + "|" + b
    ensures a == b && x == y
  {
    var s, t := x + "|" + a, y + "|" + b;
    assert s[|x|] == '|' && t[|y|] == '|';
    assert forall k :: |x| < k < |s| ==> s[k] == a[k - |x| - 1] != '|';
    assert forall k :: |y| < k < |t| ==> t[k] == b[k - |y| - 1] != '|';
    assert x == s[..|x|] && y == t[..|y|] && a == s[|x| + 1..] && b == t[|y| + 1..];
  }

  lemma {:induction false} DecimalNoBar(n: nat)
    ensures Decimal(n) != [] && '|' !in Decimal(n)
  {
    if n >= 10 { DecimalNoBar(n / 10); }
  }

  lemma {:induction false} DecimalInjective(m: nat, n: nat)
    requires Decimal(m) == Decimal(n)
    ensures m == n
  {
    DecimalNoBar(m / 10);
    DecimalNoBar(n / 10);
    var s, t := Decimal(m), Decimal(n);
    assert s[|s| - 1] == Digit(m % 10) && t[|t| - 1] == Digit(n % 10);
    if m >= 10 && n >= 10 {
      assert s[..|s| - 1] == Decimal(m / 10) && t[..|t| - 1] == Decimal(n / 10);
      DecimalInjective(m / 10, n / 10);
    }
  }

  lemma AsnInjective(a: Option<nat>, b: Option<nat>)
    ensures '|' !in AsnText(a)
    ensures AsnText(a) == AsnText(b) ==> a == b
  {
    if a.Some? { DecimalNoBar(a.value); }
    if b.Some? { DecimalNoBar(b.value); }
    if a.Some? && b.Some? && AsnText(a) == AsnText(b) { DecimalInjective(a.value, b.value); }
  }

  lemma PolicyInjective(p: FilterPolicy, q: FilterPolicy)
    ensures '|' !in PolicyText(p)
    ensures PolicyText(p) == PolicyText(q) ==> p == q
  {
    assert |PolicyText(Allow)| == 5 && |PolicyText(Deny)| == 4 && |PolicyText(Require)| == 7;
  }

  /** Two fingerprints agree exactly when the port and every coded field agree and
      the three texts print the same. No hypothesis on the inputs. */
  lemma FingerprintExact(f: Filters, p: Port, g: Filters, q: Port)
    ensures FilterFingerprint(f, p) == FilterFingerprint(g, q)
            <==> p == q && SameCodes(f, g) && Place(f) == Place(g)
  {
    if FilterFingerprint(f, p) == FilterFingerprint(g, q) {
      PeelCodes(f, p, g, q);
      var s, t := Decimal(p) + ("|" + Place(f)), Decimal(q) + ("|" + Place(g));
      assert ("v2|" + s)[3..] == s && ("v2|" + t)[3..] == t;
      DecimalNoBar(p);
      DecimalNoBar(q);
      SplitFront(Decimal(p), Place(f), Decimal(q), Place(g));
      DecimalInjective(p, q);
    }
  }

  lemma PeelCodes(f: Filters, p: Port, g: Filters, q: Port)
    requires FilterFingerprint(f, p) == FilterFingerprint(g, q)
    ensures SameCodes(f, g)
    ensures "v2|" + (Decimal(p) + ("|" + Place(f))) == "v2|" + (Decimal(q) + ("|" + Place(g)))
  {
    var s0, t0 := "v2|" + (Decimal(p) + ("|" + Place(f))), "v2|" + (Decimal(q) + ("|" + Place(g)));
    var s1, t1 := s0 + "|" + AsnText(f.asn), t0 + "|" + AsnText(g.asn);
    var s2, t2 := s1 + "|" + Decimal(f.minBandwidth), t1 + "|" + Decimal(g.minBandwidth);
    var s3, t3 := s2 + "|" + PolicyText(f.proxy), t2 + "|" + PolicyText(g.proxy);
    var s4, t4 := s3 + "|" + PolicyText(f.mobile), t3 + "|" + PolicyText(g.mobile);
    PolicyInjective(f.hosting, g.hosting); PolicyInjective(g.hosting, f.hosting);
    SplitBack(s4, PolicyText(f.hosting), t4, PolicyText(g.hosting));
    PolicyInjective(f.mobile, g.mobile); PolicyInjective(g.mobile, f.mobile);
    SplitBack(s3, PolicyText(f.mobile), t3, PolicyText(g.mobile));
    PolicyInjective(f.proxy, g.proxy); PolicyInjective(g.proxy, f.proxy);
    SplitBack(s2, PolicyText(f.proxy), t2, PolicyText(g.proxy));
    DecimalNoBar(f.minBandwidth); DecimalNoBar(g.minBandwidth);
    SplitBack(s1, Decimal(f.minBandwidth), t1, Decimal(g.minBandwidth));
    DecimalInjective(f.minBandwidth, g.minBandwidth);
    AsnInjective(f.asn, g.asn); AsnInjective(g.asn, f.asn);
    SplitBack(s0, AsnText(f.asn), t0, AsnText(g.asn));
  }

  /** Injective on every filter field and the port when country and city are free
      of the separator, whatever the ISP expression contains. */
  lemma FingerprintInjective(f: Filters, p: Port, g: Filters, q: Port)
    requires '|' !in Text(f.country) && '|' !in Text(g.country)
    requires '|' !in Text(f.city) && '|' !in Text(g.city)
    ensures FilterFingerprint(f, p) == FilterFingerprint(g, q) <==> p == q && SameFilters(f, g)
  {
    FingerprintExact(f, p, g, q);
    if Place(f) == Place(g) {
      SplitFront(Text(f.country), Text(f.city) + ("|" + Text(f.isp)), Text(g.country),
        Text(g.city) + ("|" + Text(g.isp)));
      SplitFront(Text(f.city), Text(f.isp), Text(g.city), Text(g.isp));
    }
  }

  lemma PlaceBars(f: Filters)
    ensures multiset(Place(f))['|'] == Bars(f) + 2
  {
    var tail := Text(f.city) + ("|" + Text(f.isp));
    assert multiset("|" + Text(f.isp)) == multiset{'|'} + multiset(Text(f.isp));
    assert multiset(tail) == multiset(Text(f.city)) + multiset("|" + Text(f.isp));
    assert multiset("|" + tail) == multiset{'|'} + multiset(tail);
    assert multiset(Place(f)) == multiset(Text(f.country)) + multiset("|" + tail);
  }

  /** A filter set owns its fingerprint exactly when none of its texts contains the
      separator; otherwise a different filter set shares it. */
  lemma FingerprintUniqueIff(f: Filters, p: Port)
    ensures (forall g, q :: FilterFingerprint(g, q) == FilterFingerprint(f, p) ==> q == p && SameFilters(f, g))
            <==> Bars(f) == 0
  {
    if Bars(f) == 0 {
      forall g, q | FilterFingerprint(g, q) == FilterFingerprint(f, p) ensures q == p && SameFilters(f, g) {
        FingerprintExact(f, p, g, q);
        PlaceBars(f);
        PlaceBars(g);
        FingerprintInjective(f, p, g, q);
      }
    } else {
      var g := Alias(f);
      FingerprintExact(f, p, g, p);
      assert FilterFingerprint(g, p) == FilterFingerprint(f, p) && !SameFilters(f, g);
    }
  }

  lemma SplitAtBar(s: string, i: nat)
    requires i < |s| && s[i] == '|'
    ensures s == s[..i] + ("|" + s[i + 1..]) && |s[..i]| < |s|
  {
  }

  lemma MoveBar(a: string, b: string, c: string)
    ensures (a + ("|" + b)) + ("|" + c) == a + ("|" + (b + ("|" + c)))
  {
  }

  /** Moves the first stray separator into a field boundary. */
  ghost function Alias(f: Filters): (g: Filters)
    requires Bars(f) > 0
    ensures Place(g) == Place(f) && SameCodes(f, g) && !SameFilters(f, g)
  {
    var country, city, isp := Text(f.country), Text(f.city), Text(f.isp);
    if '|' in country then
      var i: nat :| i < |country| && country[i] == '|';
      SplitAtBar(country, i);
      MoveBar(country[..i], country[i + 1..], city + ("|" + isp));
      f.(country := Some(country[..i]), city := Some(country[i + 1..]), isp := Some(city + ("|" + isp)))
    else if '|' in city then
      var i: nat :| i < |city| && city[i] == '|';
      SplitAtBar(city, i);
      MoveBar(city[..i], city[i + 1..], isp);
      f.(city := Some(city[..i]), isp := Some(city[i + 1..] + ("|" + isp)))
    else
      var i: nat :| i < |isp| && isp[i] == '|';
      SplitAtBar(isp, i);
      MoveBar(city, isp[..i], isp[i + 1..]);
      f.(city := Some(city + ("|" + isp[..i])), isp := Some(isp[i + 1..]))
  }

  /** A concrete collision: the city hypothesis of `FingerprintInjective` is needed. */
  lemma CityIspCollision(f: Filters, p: Port)
    ensures var a := f.(city := Some("Tiel|Comcast"), isp := Some("Ziggo"));
            var b := f.(city := Some("Tiel"), isp := Some("Comcast|Ziggo"));
            FilterFingerprint(a, p) == FilterFingerprint(b, p) && !SameFilters(a, b)
  {
    var a := f.(city := Some("Tiel|Comcast"), isp := Some("Ziggo"));
    var b := f.(city := Some("Tiel"), isp := Some("Comcast|Ziggo"));
    assert Text(a.city) + ("|" + Text(a.isp)) == Text(b.city) + ("|" + Text(b.isp));
    assert |Text(a.city)| != |Text(b.city)|;
  }
}
