/**
 Port negotiation: the surround layouts of src/plugins/surround/surround.cpp and
 the configurations of src/plugins/multiout_gen/multiout_gen.cpp.
*/
module PortConfigs {
  import opened PrePass

  datatype Layout = Layout(channels: nat, map_: seq<nat>)

  const LAYOUT_COUNT: nat := 3
  const STEREO_CONFIG: nat := 0
  const MULTI_OUT_CONFIG: nat := 1
  const MULTI_OUT_PORTS: nat := 5

  /** Quad 4.0, 5.1 and 7.1: FL 0, FR 1, FC 2, LFE 3, BL 4, BR 5, SL 9, SR 10; unused entries are 0. */
  function LayoutAt(l: nat): (r: Layout)
    requires l < LAYOUT_COUNT
    ensures r.channels <= |r.map_| == 8
  {
    if l == 0 then Layout(4, [0, 1, 4, 5, 0, 0, 0, 0])
    else if l == 1 then Layout(6, [0, 1, 2, 3, 4, 5, 0, 0])
    else Layout(8, [0, 1, 2, 3, 4, 5, 9, 10])
  }

  datatype PortType = NoType | Mono | Stereo | Surround | OtherType

  datatype ChannelMap = NoMap | ChannelMap(identifiers: seq<nat>)

  datatype Request = Request(portIndex: nat, channels: nat, portType: PortType, details: ChannelMap)

  datatype Requests = NullRequests | Requests(list: seq<Request>)

  /** The layout with a channel count, or -1. */
  function Match(channels: nat): (m: int)
    ensures -1 <= m < LAYOUT_COUNT
    ensures forall l | 0 <= l < LAYOUT_COUNT :: m == l <==> LayoutAt(l).channels == channels
  {
    if channels == 4 then 0 else if channels == 6 then 1 else if channels == 8 then 2 else -1
  }

  predicate MapFits(details: ChannelMap, l: nat)
    requires l < LAYOUT_COUNT
  {
    var layout := LayoutAt(l);
    details.NoMap? ||
    (layout.channels <= |details.identifiers| &&
     details.identifiers[..layout.channels] == layout.map_[..layout.channels])
  }

  /** The request can be met by layout l on its own. */
  predicate Fits(request: Request, l: nat)
    requires l < LAYOUT_COUNT
  {
    request.portIndex == 0 && (request.portType.NoType? || request.portType.Surround?) &&
    request.channels == LayoutAt(l).channels && MapFits(request.details, l)
  }

  /** All requests, at least one, agree on layout l. */
  predicate Agreed(requests: Requests, l: int) {
    0 <= l < LAYOUT_COUNT && requests.Requests? && requests.list != [] &&
    forall i | 0 <= i < |requests.list| :: Fits(requests.list[i], l)
  }

  /** The layout the requests agree on, or -1. */
  function LayoutFor(requests: Requests): (layout: int)
    ensures -1 <= layout < LAYOUT_COUNT
    ensures forall l | 0 <= l < LAYOUT_COUNT :: layout == l <==> Agreed(requests, l)
  {
    if requests.NullRequests? || requests.list == [] then -1 else
    var m := Match(requests.list[0].channels);
    assert forall l | 0 <= l < LAYOUT_COUNT && Agreed(requests, l) :: Fits(requests.list[0], l) && m == l;
    if Agreed(requests, m) then m else -1
  }

  class SurroundPlugin {
    var layoutIndex: nat

    ghost predicate Valid()
      reads this
    {
      layoutIndex < LAYOUT_COUNT
    }

    constructor ()
      ensures Valid() && layoutIndex == 1
    {
      layoutIndex := 1;
    }

    /** The layout the requests agree on, or -1. */
    method LayoutForRequests(requests: Requests) returns (layout: int)
      ensures forall l | 0 <= l < LAYOUT_COUNT :: layout == l <==> Agreed(requests, l)
      ensures -1 <= layout < LAYOUT_COUNT
    {
      if requests.NullRequests? || requests.list == [] {
        return -1;
      }
      layout := -1;
      for i := 0 to |requests.list|
        invariant -1 <= layout < LAYOUT_COUNT
        invariant layout == -1 <==> i == 0
        invariant layout >= 0 ==> forall j | 0 <= j < i :: Fits(requests.list[j], layout)
      {
        var request := requests.list[i];
        if request.portIndex != 0 || request.portType.Mono? || request.portType.Stereo? {
          return -1;
        }
        if !request.portType.NoType? && !request.portType.Surround? {
          return -1;
        }
        var found := -1;
        for l := 0 to LAYOUT_COUNT
          invariant found == if Match(request.channels) < l then Match(request.channels) else -1
        {
          if LayoutAt(l).channels == request.channels {
            found := l;
          }
        }
        if found < 0 || !MapFits(request.details, found) {
          return -1;
        }
        if layout >= 0 && layout != found {
          assert !Fits(request, layout);
          return -1;
        }
        layout := found;
      }
      assert Fits(requests.list[0], layout);
    }

    /** `active` is the base class's isActive(). */
    method CanApplyConfiguration(active: bool, requests: Requests) returns (ok: bool)
      ensures ok <==> !active && exists l :: Agreed(requests, l)
    {
      if active {
        return false;
      }
      var layout := LayoutForRequests(requests);
      assert layout >= 0 ==> Agreed(requests, layout);
      ok := layout >= 0;
    }

    /** Applies a configuration exactly when it can be applied; then both ports have every request's channel count. */
    method ApplyConfiguration(active: bool, requests: Requests) returns (ok: bool)
      requires Valid()
      modifies this
      ensures Valid()
      ensures ok <==> !active && exists l :: Agreed(requests, l)
      ensures ok ==> Agreed(requests, layoutIndex)
      ensures ok ==>
        forall i | 0 <= i < |requests.list| :: requests.list[i].channels == Ports(layoutIndex)[0].channels
      ensures !ok ==> layoutIndex == old(layoutIndex)
    {
      if active {
        return false;
      }
      var layout := LayoutForRequests(requests);
      if layout < 0 {
        return false;
      }
      assert Agreed(requests, layout);
      layoutIndex := layout;
      ok := true;
    }

    method IsChannelMaskSupported(mask: nat) returns (supported: bool)
      requires mask < Pow2(64)
      ensures supported <==> exists l | 0 <= l < LAYOUT_COUNT :: Bits(mask, 64) == Identifiers(l)
    {
      hide Bits, Identifiers, LayoutAt;
      supported := false;
      for l := 0 to LAYOUT_COUNT
        invariant supported <==> exists k | 0 <= k < l :: Bits(mask, 64) == Identifiers(k)
      {
        var layoutMask := MaskOf(l);
        SameMaskIff(mask, layoutMask, 64);
        supported := supported || layoutMask == mask;
      }
    }
  }

  /** The ports of a surround layout: one per direction, 32-bit only. */
  function Ports(l: nat): (r: seq<PortInfo>)
    requires l < LAYOUT_COUNT
  {
    [PortInfo(LayoutAt(l).channels, false, false)]
  }

  /** Permuting the requests changes neither acceptance nor the chosen layout. */
  lemma OrderDoesNotMatter(a: seq<Request>, b: seq<Request>, l: int)
    requires multiset(a) == multiset(b)
    ensures Agreed(Requests(a), l) <==> Agreed(Requests(b), l)
  {
    SameMembers(a, b);
    SameMembers(b, a);
  }

  lemma SameMembers(a: seq<Request>, b: seq<Request>)
    requires multiset(a) == multiset(b)
    ensures |a| == |b|
    ensures forall i | 0 <= i < |a| :: exists j | 0 <= j < |b| :: b[j] == a[i]
  {
    assert |a| == |multiset(a)| == |multiset(b)| == |b|;
    forall i | 0 <= i < |a| ensures exists j | 0 <= j < |b| :: b[j] == a[i] {
      assert a[i] in multiset(b);
    }
  }

  /** The speakers of a layout, in channel order. */
  function Speakers(l: nat): seq<nat>
    requires l < LAYOUT_COUNT
  {
    if l == 0 then [0, 1, 4, 5] else if l == 1 then [0, 1, 2, 3, 4, 5] else [0, 1, 2, 3, 4, 5, 9, 10]
  }

  /**
   Agreement, request by request: each is for port 0, as surround or of no stated
   type, for 4, 6 or 8 channels, and if it maps them, to the layout's speakers.
  */
  lemma AgreedMeans(list: seq<Request>, l: nat)
    requires l < LAYOUT_COUNT
    ensures Agreed(Requests(list), l) <==>
      list != [] && forall i | 0 <= i < |list| ::
        list[i].portIndex == 0 && (list[i].portType.NoType? || list[i].portType.Surround?) &&
        list[i].channels == |Speakers(l)| &&
        (list[i].details.ChannelMap? ==> Speakers(l) <= list[i].details.identifiers)
  {
    var speakers, layout := Speakers(l), LayoutAt(l);
    assert layout.map_[..layout.channels] == speakers;
    forall i | 0 <= i < |list| && list[i].channels == |speakers| && list[i].details.ChannelMap?
      ensures MapFits(list[i].details, l) <==> speakers <= list[i].details.identifiers
    {
      MapIs(list[i].details.identifiers, speakers);
    }
  }

  lemma MapIs(identifiers: seq<nat>, speakers: seq<nat>)
    ensures speakers <= identifiers <==> |speakers| <= |identifiers| && identifiers[..|speakers|] == speakers
  {
  }

  /** At most one layout can be agreed on. */
  lemma OneLayout(requests: Requests, l: int, m: int)
    requires Agreed(requests, l) && Agreed(requests, m)
    ensures l == m
  {
    assert Fits(requests.list[0], l) && Fits(requests.list[0], m);
    assert Match(requests.list[0].channels) == l;
  }

  // ---- channel masks ----

  function Pow2(n: nat): nat { if n == 0 then 1 else 2 * Pow2(n - 1) }

  /** The positions of the set bits below `width`. */
  function Bits(mask: nat, width: nat): (r: set<nat>) {
    set i: nat | i < width && Bit(mask, i)
  }

  predicate Bit(mask: nat, i: nat) {
    if i == 0 then mask % 2 == 1 else Bit(mask / 2, i - 1)
  }

  /** `mask | 1 << i` */
  function WithBit(mask: nat, i: nat): nat {
    if i == 0 then mask / 2 * 2 + 1 else mask % 2 + 2 * WithBit(mask / 2, i - 1)
  }

  lemma {:induction false} WithBitSets(mask: nat, i: nat, j: nat)
    ensures Bit(WithBit(mask, i), j) <==> i == j || Bit(mask, j)
  {
    if i > 0 && j > 0 {
      WithBitSets(mask / 2, i - 1, j - 1);
    }
  }

  lemma {:induction false} WithBitSmall(mask: nat, i: nat, width: nat)
    requires mask < Pow2(width) && i < width
    ensures WithBit(mask, i) < Pow2(width)
  {
    hide Pow2;
    Halves(mask, width);
    if i > 0 {
      WithBitSmall(mask / 2, i - 1, width - 1);
    }
  }

  lemma Halves(mask: nat, width: nat)
    requires mask < Pow2(width) && width > 0
    ensures Pow2(width) == 2 * Pow2(width - 1) && mask / 2 < Pow2(width - 1)
  {
  }

  /** A mask is determined by its set of bits. */
  lemma {:induction false} SameBits(a: nat, b: nat, width: nat)
    requires a < Pow2(width) && b < Pow2(width) && Bits(a, width) == Bits(b, width)
    ensures a == b
  {
    if width > 0 {
      assert 0 in Bits(a, width) <==> a % 2 == 1;
      assert 0 in Bits(b, width) <==> b % 2 == 1;
      forall i: nat | i < width - 1 ensures Bit(a / 2, i) <==> Bit(b / 2, i) {
        assert i + 1 in Bits(a, width) <==> Bit(a, i + 1);
        assert i + 1 in Bits(b, width) <==> Bit(b, i + 1);
      }
      SameBits(a / 2, b / 2, width - 1);
    }
  }

  lemma OneMoreBit(mask: nat, i: nat)
    requires mask < Pow2(64) && i < 64
    ensures WithBit(mask, i) < Pow2(64) && Bits(WithBit(mask, i), 64) == Bits(mask, 64) + {i}
  {
    hide Pow2, WithBit, Bit;
    WithBitSmall(mask, i, 64);
    forall j: nat ensures Bit(WithBit(mask, i), j) <==> i == j || Bit(mask, j) {
      WithBitSets(mask, i, j);
    }
  }

  lemma QuadMask()
    ensures 51 < Pow2(64) && Bits(51, 64) == Identifiers(0) && 3 < Pow2(64) && Bits(3, 64) == {0, 1}
  {
    hide Pow2, Bits, Bit, WithBit, Identifiers, Speakers, LayoutAt;
    QuadValues();
    Nothing();
    OneMoreBit(0, 0);
    OneMoreBit(1, 1);
    OneMoreBit(3, 4);
    OneMoreBit(19, 5);
    IdentifiersAre(0);
    SpeakersAre();
    assert {} + {0} + {1} == {0, 1} && {0, 1} + {4} + {5} == set x | x in [0, 1, 4, 5];
  }

  lemma FiveOneMask()
    ensures 63 < Pow2(64) && Bits(63, 64) == Identifiers(1)
  {
    hide Pow2, Bits, Bit, WithBit, Identifiers, Speakers, LayoutAt;
    FiveOneValues();
    QuadMask();
    OneMoreBit(3, 2);
    OneMoreBit(7, 3);
    OneMoreBit(15, 4);
    OneMoreBit(31, 5);
    IdentifiersAre(1);
    SpeakersAre();
    assert {0, 1} + {2} + {3} + {4} + {5} == set x | x in [0, 1, 2, 3, 4, 5];
  }

  lemma SevenOneMask()
    ensures 1599 < Pow2(64) && Bits(1599, 64) == Identifiers(2)
  {
    hide Pow2, Bits, Bit, WithBit, Identifiers, Speakers, LayoutAt;
    SevenOneValues();
    FiveOneMask();
    OneMoreBit(63, 9);
    OneMoreBit(575, 10);
    IdentifiersAre(1);
    IdentifiersAre(2);
    SpeakersAre();
    assert (set x | x in [0, 1, 2, 3, 4, 5]) + {9} + {10} == set x | x in [0, 1, 2, 3, 4, 5, 9, 10];
  }

  lemma SpeakersAre()
    ensures Speakers(0) == [0, 1, 4, 5] && Speakers(1) == [0, 1, 2, 3, 4, 5]
    ensures Speakers(2) == [0, 1, 2, 3, 4, 5, 9, 10]
  {
  }

  lemma IdentifiersAre(l: nat)
    requires l < LAYOUT_COUNT
    ensures Identifiers(l) == set x | x in Speakers(l)
  {
    var layout, speakers := LayoutAt(l), Speakers(l);
    assert layout.channels == |speakers| && layout.map_[..layout.channels] == speakers;
    assert forall c | 0 <= c < |speakers| :: layout.map_[c] == speakers[c];
    forall x | x in speakers ensures x in Identifiers(l) {
      var c :| 0 <= c < |speakers| && speakers[c] == x;
      assert layout.map_[c] == x;
    }
  }

  lemma Nothing()
    ensures 0 < Pow2(64) && Bits(0, 64) == {}
  {
    Pow2Positive(64);
    forall i: nat ensures !Bit(0, i) {
      NoBits(i);
    }
  }

  lemma QuadValues()
    ensures WithBit(0, 0) == 1 && WithBit(1, 1) == 3 && WithBit(3, 4) == 19 && WithBit(19, 5) == 51
  {
    assert WithBit(0, 2) == 4 && WithBit(0, 3) == 8;
    assert WithBit(1, 3) == 9 && WithBit(4, 3) == 12 && WithBit(9, 4) == 25;
  }

  lemma FiveOneValues()
    ensures WithBit(3, 2) == 7 && WithBit(7, 3) == 15 && WithBit(15, 4) == 31 && WithBit(31, 5) == 63
  {
    assert WithBit(3, 3) == 11 && WithBit(7, 4) == 23;
  }

  lemma SevenOneValues()
    ensures WithBit(63, 9) == 575 && WithBit(575, 10) == 1599
  {
    assert WithBit(0, 1) == 2 && WithBit(0, 2) == 4;
    assert WithBit(0, 3) == 8 && WithBit(1, 4) == 17;
    assert WithBit(3, 5) == 35 && WithBit(7, 6) == 71;
    assert WithBit(15, 7) == 143 && WithBit(31, 8) == 287;
    TenthBit();
  }

  lemma TenthBit()
    ensures WithBit(575, 10) == 1599
  {
    assert WithBit(1, 1) == 3 && WithBit(2, 2) == 6;
    assert WithBit(4, 3) == 12 && WithBit(8, 4) == 24;
    assert WithBit(17, 5) == 49 && WithBit(35, 6) == 99;
    assert WithBit(71, 7) == 199 && WithBit(143, 8) == 399;
    assert WithBit(287, 9) == 799;
  }

  /** The supported masks are 0x33, 0x3f and 0x63f. */
  lemma SupportedMasks(mask: nat)
    requires mask < Pow2(64)
    ensures (exists l | 0 <= l < LAYOUT_COUNT :: Bits(mask, 64) == Identifiers(l)) <==>
      mask == 51 || mask == 63 || mask == 1599
  {
    hide Pow2, Bits, Identifiers;
    QuadMask();
    FiveOneMask();
    SevenOneMask();
    SameMaskIff(mask, 51, 64);
    SameMaskIff(mask, 63, 64);
    SameMaskIff(mask, 1599, 64);
  }

  function Identifiers(l: nat): set<nat>
    requires l < LAYOUT_COUNT
  {
    set c | 0 <= c < LayoutAt(l).channels :: LayoutAt(l).map_[c]
  }

  lemma SameMaskIff(a: nat, b: nat, width: nat)
    requires a < Pow2(width) && b < Pow2(width)
    ensures a == b <==> Bits(a, width) == Bits(b, width)
  {
    hide Bits;
    if Bits(a, width) == Bits(b, width) {
      SameBits(a, b, width);
    }
  }

  /** The mask of layout l. */
  method MaskOf(l: nat) returns (mask: nat)
    requires l < LAYOUT_COUNT
    ensures mask < Pow2(64) && Bits(mask, 64) == Identifiers(l)
  {
    hide Pow2, Bits;
    mask := LayoutMask(LayoutAt(l));
  }

  method LayoutMask(layout: Layout) returns (mask: nat)
    requires layout.channels <= |layout.map_| && forall c | 0 <= c < layout.channels :: layout.map_[c] < 64
    ensures mask < Pow2(64)
    ensures Bits(mask, 64) == set c | 0 <= c < layout.channels :: layout.map_[c]
  {
    mask := 0;
    assert Pow2(64) > 0 by { Pow2Positive(64); }
    forall i: nat ensures !Bit(0, i) { NoBits(i); }
    for c := 0 to layout.channels
      invariant mask < Pow2(64)
      invariant Bits(mask, 64) == set d | 0 <= d < c :: layout.map_[d]
    {
      ghost var before := mask;
      mask := WithBit(mask, layout.map_[c]);
      WithBitSmall(before, layout.map_[c], 64);
      forall i: nat ensures Bit(mask, i) <==> i == layout.map_[c] || Bit(before, i) {
        WithBitSets(before, layout.map_[c], i);
      }
      assert Bits(mask, 64) == Bits(before, 64) + {layout.map_[c]};
    }
  }

  lemma {:induction false} Pow2Positive(n: nat)
    ensures Pow2(n) > 0
  {
    if n > 0 { Pow2Positive(n - 1); }
  }

  lemma {:induction false} NoBits(i: nat)
    ensures !Bit(0, i)
  {
    if i > 0 { NoBits(i - 1); }
  }

  // ---- switchable output configurations ----

  function ConfigPorts(config: nat): (r: seq<PortInfo>)
    ensures |r| == if config == MULTI_OUT_CONFIG then MULTI_OUT_PORTS else 1
    ensures forall i | 0 <= i < |r| :: r[i] == PortInfo(2, false, false)
  {
    seq(if config == MULTI_OUT_CONFIG then MULTI_OUT_PORTS else 1, _ => PortInfo(2, false, false))
  }

  class MultiOutGenPlugin {
    var config: nat

    ghost predicate Valid()
      reads this
    {
      config == STEREO_CONFIG || config == MULTI_OUT_CONFIG
    }

    constructor ()
      ensures Valid() && config == STEREO_CONFIG
    {
      config := STEREO_CONFIG;
    }

    method AudioPortsConfigSelect(active: bool, id: nat) returns (ok: bool)
      requires Valid()
      modifies this
      ensures Valid()
      ensures ok <==> !active && (id == STEREO_CONFIG || id == MULTI_OUT_CONFIG)
      ensures config == if ok then id else old(config)
    {
      if active {
        return false;
      }
      if id != STEREO_CONFIG && id != MULTI_OUT_CONFIG {
        return false;
      }
      config := id;
      ok := true;
    }
  }
}
