/** The transport-mode section of the results page: its heading, the
    option-count label, and the order it lists the options in. For the land
    section the options are sorted with a comparator that puts buses before
    trains; `Array.prototype.sort` is stable, and is modelled here by a
    stable insertion sort on a fresh sequence, so the caller's list is never
    changed. */
module TransportSection {
  import opened Decimal
  import opened Travel

  /** The land-section comparator: negative when `a` must come first,
      positive when `b` must, zero when their order is kept. */
  function Compare(a: TravelKind, b: TravelKind): (c: int)
    ensures c < 0 <==> a == Bus && b == Train
    ensures c > 0 <==> a == Train && b == Bus
    ensures -1 <= c <= 1
  {
    if a == Bus && b == Train then -1
    else if a == Train && b == Bus then 1
    else 0
  }

  /** The comparator is antisymmetric: swapping its arguments negates it. */
  lemma CompareAntisymmetric(a: TravelKind, b: TravelKind)
    ensures Compare(a, b) == -Compare(b, a)
  {
  }

  /** Places `x`, which came before every element of `t`, into `t`: after
      each element the comparator orders strictly before it, and before the
      first one it does not, so it stays ahead of its equals. */
  function Insert(x: TravelOption, t: seq<TravelOption>): (r: seq<TravelOption>)
    ensures multiset(r) == multiset(t) + multiset{x}
  {
    if t == [] || Compare(x.kind, t[0].kind) <= 0 then [x] + t
    else
      assert t == [t[0]] + t[1..];
      [t[0]] + Insert(x, t[1..])
  }

  /** `s` sorted by `Compare`, stably. */
  function SortBy(s: seq<TravelOption>): (r: seq<TravelOption>)
    ensures multiset(r) == multiset(s)
  {
    if s == [] then []
    else
      assert s == [s[0]] + s[1..];
      Insert(s[0], SortBy(s[1..]))
  }

  /** The options in the order the section lists them: sorted for land,
      as given for air and water. */
  function SortedOptions(mode: TransportMode, options: seq<TravelOption>): (r: seq<TravelOption>)
    ensures multiset(r) == multiset(options)
    ensures mode != Land ==> r == options
  {
    if mode == Land then SortBy(options) else options
  }

  /** The options of kind `kind`, in their original order. */
  function OfKind(s: seq<TravelOption>, kind: TravelKind): (r: seq<TravelOption>)
    ensures forall i :: 0 <= i < |r| ==> r[i].kind == kind
    ensures |r| <= |s|
  {
    if s == [] then []
    else if s[0].kind == kind then [s[0]] + OfKind(s[1..], kind)
    else OfKind(s[1..], kind)
  }

  predicate BusesAndTrains(s: seq<TravelOption>)
  {
    forall i :: 0 <= i < |s| ==> s[i].kind == Bus || s[i].kind == Train
  }

  /** A train placed into buses followed by trains goes after every bus and
      before every train. */
  lemma {:induction false} InsertTrain(x: TravelOption, buses: seq<TravelOption>, trains: seq<TravelOption>)
    requires x.kind == Train
    requires forall i :: 0 <= i < |buses| ==> buses[i].kind == Bus
    requires forall i :: 0 <= i < |trains| ==> trains[i].kind == Train
    ensures Insert(x, buses + trains) == buses + [x] + trains
  {
    if buses == [] {
      assert buses + trains == trains;
    } else {
      assert (buses + trains)[0] == buses[0];
      assert (buses + trains)[1..] == buses[1..] + trains;
      InsertTrain(x, buses[1..], trains);
      assert [buses[0]] + (buses[1..] + [x] + trains) == buses + [x] + trains;
    }
  }

  /** Sorting options that are all buses or trains lists every bus, in its
      original order, then every train, in its original order. */
  lemma {:induction false} LandOrder(s: seq<TravelOption>)
    requires BusesAndTrains(s)
    ensures SortBy(s) == OfKind(s, Bus) + OfKind(s, Train)
  {
    if s != [] {
      BusesAndTrainsTail(s);
      LandOrder(s[1..]);
      LandOrderStep(s, OfKind(s[1..], Bus), OfKind(s[1..], Train));
    }
  }

  lemma BusesAndTrainsTail(s: seq<TravelOption>)
    requires s != [] && BusesAndTrains(s)
    ensures BusesAndTrains(s[1..])
  {
    forall i | 0 <= i < |s[1..]| ensures s[1..][i].kind == Bus || s[1..][i].kind == Train {
      assert s[1..][i] == s[i + 1];
    }
  }

  /** One step of `LandOrder`: placing the first option into the sorted rest. */
  lemma LandOrderStep(s: seq<TravelOption>, buses: seq<TravelOption>, trains: seq<TravelOption>)
    requires s != [] && (s[0].kind == Bus || s[0].kind == Train)
    requires buses == OfKind(s[1..], Bus) && trains == OfKind(s[1..], Train)
    requires SortBy(s[1..]) == buses + trains
    ensures SortBy(s) == OfKind(s, Bus) + OfKind(s, Train)
  {
    if s[0].kind == Bus {
      LandOrderBusStep(s, buses, trains);
    } else {
      LandOrderTrainStep(s, buses, trains);
    }
  }

  lemma LandOrderBusStep(s: seq<TravelOption>, buses: seq<TravelOption>, trains: seq<TravelOption>)
    requires s != [] && s[0].kind == Bus
    requires buses == OfKind(s[1..], Bus) && trains == OfKind(s[1..], Train)
    requires SortBy(s[1..]) == buses + trains
    ensures SortBy(s) == OfKind(s, Bus) + OfKind(s, Train)
  {
    calc {
      SortBy(s);
      Insert(s[0], buses + trains);
      { InsertBus(s[0], buses + trains); }
      [s[0]] + (buses + trains);
      ([s[0]] + buses) + trains;
      { assert OfKind(s, Bus) == [s[0]] + buses; assert OfKind(s, Train) == trains; }
      OfKind(s, Bus) + OfKind(s, Train);
    }
  }

  lemma LandOrderTrainStep(s: seq<TravelOption>, buses: seq<TravelOption>, trains: seq<TravelOption>)
    requires s != [] && s[0].kind == Train
    requires buses == OfKind(s[1..], Bus) && trains == OfKind(s[1..], Train)
    requires SortBy(s[1..]) == buses + trains
    ensures SortBy(s) == OfKind(s, Bus) + OfKind(s, Train)
  {
    calc {
      SortBy(s);
      Insert(s[0], buses + trains);
      { InsertTrain(s[0], buses, trains); }
      buses + [s[0]] + trains;
      buses + ([s[0]] + trains);
      { assert OfKind(s, Bus) == buses; assert OfKind(s, Train) == [s[0]] + trains; }
      OfKind(s, Bus) + OfKind(s, Train);
    }
  }

  /** A bus goes to the front: the comparator never orders it after anything. */
  lemma InsertBus(x: TravelOption, t: seq<TravelOption>)
    requires x.kind == Bus
    ensures Insert(x, t) == [x] + t
  {
  }

  /** In the land section, when every option is a bus or a train, no train
      is listed before a bus. */
  lemma BusesBeforeTrains(s: seq<TravelOption>, i: int, j: int)
    requires BusesAndTrains(s)
    requires 0 <= i < j < |SortedOptions(Land, s)|
    ensures !(SortedOptions(Land, s)[i].kind == Train && SortedOptions(Land, s)[j].kind == Bus)
  {
    LandOrder(s);
    var buses := OfKind(s, Bus);
    if i >= |buses| {
      assert SortedOptions(Land, s)[j] == OfKind(s, Train)[j - |buses|];
    } else {
      assert SortedOptions(Land, s)[i] == buses[i];
    }
  }

  /** A land list that already has its buses before its trains is listed as given. */
  lemma SortedLandUnchanged(buses: seq<TravelOption>, trains: seq<TravelOption>)
    requires forall i :: 0 <= i < |buses| ==> buses[i].kind == Bus
    requires forall i :: 0 <= i < |trains| ==> trains[i].kind == Train
    ensures SortedOptions(Land, buses + trains) == buses + trains
  {
    var s := buses + trains;
    assert BusesAndTrains(s) by {
      forall i | 0 <= i < |s| ensures s[i].kind == Bus || s[i].kind == Train {
        if i >= |buses| { assert s[i] == trains[i - |buses|]; }
      }
    }
    LandOrder(s);
    KindOfUniform(buses, Bus, Train);
    KindOfUniform(trains, Train, Bus);
    assert OfKind(s, Train) == OfKind(trains, Train) by {
      OfKindAppend(buses, trains, Train);
    }
    assert OfKind(s, Bus) == OfKind(buses, Bus) by {
      OfKindAppend(buses, trains, Bus);
    }
  }

  lemma {:induction false} OfKindAppend(a: seq<TravelOption>, b: seq<TravelOption>, kind: TravelKind)
    ensures OfKind(a + b, kind) == OfKind(a, kind) + OfKind(b, kind)
  {
    if a != [] {
      assert (a + b)[1..] == a[1..] + b;
      OfKindAppend(a[1..], b, kind);
    } else {
      assert a + b == b;
    }
  }

  /** A list all of one kind keeps every element when filtered on that
      kind, and none when filtered on another. */
  lemma {:induction false} KindOfUniform(s: seq<TravelOption>, kind: TravelKind, other: TravelKind)
    requires kind != other
    requires forall i :: 0 <= i < |s| ==> s[i].kind == kind
    ensures OfKind(s, kind) == s && OfKind(s, other) == []
  {
    if s != [] {
      KindOfUniform(s[1..], kind, other);
      assert s == [s[0]] + s[1..];
    }
  }

  /** The heading of a section: its title and its description. */
  datatype SectionConfig = SectionConfig(title: string, description: string)

  function GetSectionConfig(mode: TransportMode): (config: SectionConfig)
    ensures |config.title| > 3 && config.title[..3] == "By "
  {
    match mode
    case Air => SectionConfig("By Air", "Fastest way to reach your destination")
    case Land => SectionConfig("By Land", "Buses and trains for comfortable ground travel")
    case Water => SectionConfig("By Water", "Ferries and cruises for scenic journeys")
  }

  /** Each mode has its own title, so a section can be told apart by its heading. */
  lemma TitlesDistinct(a: TransportMode, b: TransportMode)
    ensures GetSectionConfig(a).title == GetSectionConfig(b).title <==> a == b
  {
    if a != b {
      assert GetSectionConfig(a).title[3] != GetSectionConfig(b).title[3]
        || |GetSectionConfig(a).title| != |GetSectionConfig(b).title|;
    }
  }

  /** The count badge: the number of options, then "option", with an "s"
      unless there is exactly one. */
  function CountLabel(n: nat): (text: string)
    ensures NatToString(n) <= text
  {
    NatToString(n) + " option" + (if n != 1 then "s" else "")
  }

  /** The badge is singular exactly for one option. */
  lemma CountLabelSingular(n: nat)
    ensures CountLabel(n) == NatToString(n) + " option" <==> n == 1
    ensures n != 1 ==> CountLabel(n) == NatToString(n) + " options"
  {
    if CountLabel(n) == NatToString(n) + " option" {
      assert |CountLabel(n)| == |NatToString(n) + " option"|;
    }
  }

  /** Different counts give different badges: the digits end at the first
      space, so the badge determines the count. */
  lemma CountLabelInjective(a: nat, b: nat)
    ensures CountLabel(a) == CountLabel(b) <==> a == b
  {
    if CountLabel(a) == CountLabel(b) {
      var da, db := NatToString(a), NatToString(b);
      if |da| < |db| {
        assert false;
      } else if |db| < |da| {
        assert false;
      }
      assert da == CountLabel(a)[..|da|];
      NatToStringInjective(a, b);
    }
  }

  /** The badge counts the options the section lists, whether or not they were reordered. */
  lemma CountMatchesListing(mode: TransportMode, options: seq<TravelOption>)
    ensures CountLabel(|SortedOptions(mode, options)|) == CountLabel(|options|)
  {
    assert |SortedOptions(mode, options)| == |multiset(SortedOptions(mode, options))|;
  }
}
