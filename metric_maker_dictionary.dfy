/** The metric maker registry: a map from lower-cased maker names to makers in
    which the first registration of a name wins, and the rule that picks the
    constructor of a maker class that fits a maker template. */
module MetricMakers {
  import opened Wrappers

  /** A metric maker, kept opaque: an identity and the text its `toString`
      gives. */
  datatype MetricMaker = MetricMaker(id: nat, text: string)

  /** `toString` of a metric maker. */
  function ToString(maker: MetricMaker): string
  {
    maker.text
  }

  // ---------------------------------------------------------------------------
  // Lower-casing (English locale, on the ASCII letters)
  // ---------------------------------------------------------------------------

  function LowerChar(ch: char): (r: char)
    ensures 'A' <= ch <= 'Z' ==> 'a' <= r <= 'z'
    ensures !('A' <= ch <= 'Z') ==> r == ch
    ensures !('A' <= r <= 'Z')
  {
    if 'A' <= ch <= 'Z' then (ch as int - 'A' as int + 'a' as int) as char else ch
  }

  /** `toLowerCase(Locale.ENGLISH)`, character by character. */
  function Lower(s: string): (r: string)
    ensures |r| == |s|
    ensures forall i :: 0 <= i < |s| ==> r[i] == LowerChar(s[i])
  {
    if s == [] then [] else [LowerChar(s[0])] + Lower(s[1..])
  }

  /** A string that lower-casing leaves as it is. */
  predicate IsLowerCase(s: string)
  {
    forall i :: 0 <= i < |s| ==> !('A' <= s[i] <= 'Z')
  }

  /** Lower-casing yields a lower-case string, and lower-case strings are its
      fixed points; hence it is idempotent. */
  lemma LowerIsLowerCase(s: string)
    ensures IsLowerCase(Lower(s))
    ensures IsLowerCase(s) <==> Lower(s) == s
    ensures Lower(Lower(s)) == Lower(s)
  {
  }

  // ---------------------------------------------------------------------------
  // The name-to-maker map as a value
  // ---------------------------------------------------------------------------

  /** Every key of the map is lower-case. */
  ghost predicate KeysLowerCase(m: map<string, MetricMaker>)
  {
    forall k :: k in m ==> IsLowerCase(k)
  }

  /** The map after registering `maker` under `name`: unchanged if the
      lower-cased name is already a key, otherwise extended by it. */
  function Register(m: map<string, MetricMaker>, name: string, maker: MetricMaker): (r: map<string, MetricMaker>)
    ensures Lower(name) in r && r.Keys == m.Keys + {Lower(name)}
    ensures forall k :: k in m ==> r[k] == m[k]
    ensures Lower(name) !in m ==> r[Lower(name)] == maker
  {
    if Lower(name) in m then m else m[Lower(name) := maker]
  }

  /** The lower-cased key under which `addAll` registers a maker. */
  function KeyOf(maker: MetricMaker): string
  {
    Lower(ToString(maker))
  }

  /** The map after registering every maker of `makers` in order, each under
      its own `toString`. */
  function RegisterAll(m: map<string, MetricMaker>, makers: seq<MetricMaker>): (r: map<string, MetricMaker>)
    ensures m.Keys <= r.Keys
    ensures forall k :: k in m ==> r[k] == m[k]
    ensures forall k :: k in r && k !in m ==> exists i :: 0 <= i < |makers| && r[k] == makers[i]
  {
    if makers == [] then m
    else Register(RegisterAll(m, makers[..|makers| - 1]), ToString(makers[|makers| - 1]), makers[|makers| - 1])
  }

  /** The keys of a batch of makers. */
  function BatchKeys(makers: seq<MetricMaker>): (r: set<string>)
    ensures forall i :: 0 <= i < |makers| ==> KeyOf(makers[i]) in r
  {
    if makers == [] then {} else BatchKeys(makers[..|makers| - 1]) + {KeyOf(makers[|makers| - 1])}
  }

  /** Every key of a batch is the key of one of its makers. */
  lemma {:induction false} BatchKeysFrom(makers: seq<MetricMaker>, k: string)
    requires k in BatchKeys(makers)
    ensures exists i :: 0 <= i < |makers| && KeyOf(makers[i]) == k
  {
    var init := makers[..|makers| - 1];
    if k != KeyOf(makers[|makers| - 1]) {
      BatchKeysFrom(init, k);
      var i :| 0 <= i < |init| && KeyOf(init[i]) == k;
      assert makers[i] == init[i];
    }
  }

  /** Registering a batch adds exactly the batch's keys and never replaces a
      maker already present. */
  lemma {:induction false} RegisterAllKeepsExisting(m: map<string, MetricMaker>, makers: seq<MetricMaker>)
    ensures RegisterAll(m, makers).Keys == m.Keys + BatchKeys(makers)
    ensures forall k :: k in m ==> RegisterAll(m, makers)[k] == m[k]
  {
    if makers != [] {
      RegisterAllKeepsExisting(m, makers[..|makers| - 1]);
    }
  }

  /** For a key not yet present, the maker that ends up under it is the first
      maker of the batch that has this key: the first registration wins. */
  lemma {:induction false} RegisterAllFirstWins(m: map<string, MetricMaker>, makers: seq<MetricMaker>, j: nat)
    requires j < |makers| && KeyOf(makers[j]) !in m
    requires forall i :: 0 <= i < j ==> KeyOf(makers[i]) != KeyOf(makers[j])
    ensures KeyOf(makers[j]) in RegisterAll(m, makers)
    ensures RegisterAll(m, makers)[KeyOf(makers[j])] == makers[j]
  {
    var init := makers[..|makers| - 1];
    if j == |makers| - 1 {
      RegisterAllKeepsExisting(m, init);
      if KeyOf(makers[j]) in BatchKeys(init) {
        BatchKeysFrom(init, KeyOf(makers[j]));
        assert false;
      }
    } else {
      assert init[j] == makers[j];
      forall i | 0 <= i < j ensures KeyOf(init[i]) != KeyOf(init[j]) {
        assert init[i] == makers[i];
      }
      RegisterAllFirstWins(m, init, j);
    }
  }

  /** The entry of `m` under `key`, as `get` and `put` report it. */
  function Lookup(m: map<string, MetricMaker>, key: string): (r: Option<MetricMaker>)
    ensures r.Some? <==> key in m
    ensures r.Some? ==> r.value == m[key]
  {
    if key in m then Some(m[key]) else None
  }

  // ---------------------------------------------------------------------------
  // The dictionary
  // ---------------------------------------------------------------------------

  class MetricMakerDictionary {
    /** The maker registered under each lower-cased name. */
    var nameToMetricMaker: map<string, MetricMaker>

    ghost predicate Valid()
      reads this
    {
      KeysLowerCase(nameToMetricMaker)
    }

    /** An empty dictionary. */
    constructor ()
      ensures Valid() && nameToMetricMaker == map[]
    {
      nameToMetricMaker := map[];
    }

    /** The maker registered under the lower-cased `metricMakerName`, if any. */
    function FindByName(metricMakerName: string): (r: Option<MetricMaker>)
      reads this
      ensures r.Some? <==> Lower(metricMakerName) in nameToMetricMaker
      ensures r.Some? ==> r.value == nameToMetricMaker[Lower(metricMakerName)]
    {
      Lookup(nameToMetricMaker, Lower(metricMakerName))
    }

    /** Every registered maker, once each. */
    function GetAll(): (r: set<MetricMaker>)
      reads this
      ensures forall maker :: maker in r <==> exists k :: k in nameToMetricMaker && nameToMetricMaker[k] == maker
      ensures |r| <= |nameToMetricMaker|
    {
      ValuesSize(nameToMetricMaker);
      nameToMetricMaker.Values
    }

    /** Registers `metricMaker` under the lower-cased `name` unless that name is
        already taken; answers whether it was registered. */
    method Add(name: string, metricMaker: MetricMaker) returns (added: bool)
      requires Valid()
      modifies this
      ensures Valid()
      ensures added <==> Lower(name) !in old(nameToMetricMaker)
      ensures nameToMetricMaker == Register(old(nameToMetricMaker), name, metricMaker)
      ensures FindByName(name) == (if added then Some(metricMaker) else old(FindByName(name)))
    {
      var key := Lower(name);
      LowerIsLowerCase(name);
      if key in nameToMetricMaker {
        return false;
      }
      var previous := Lookup(nameToMetricMaker, key);
      nameToMetricMaker := nameToMetricMaker[key := metricMaker];
      if previous.Some? {
        // Another loader registered the name between the check and the put:
        // impossible without concurrent writers.
        assert false;
      }
      added := true;
    }

    /** Registers every maker of `metricMakers` in order under its `toString`;
        answers whether any of them was registered, i.e. whether the dictionary
        changed. */
    method AddAll(metricMakers: seq<MetricMaker>) returns (changed: bool)
      requires Valid()
      modifies this
      ensures Valid()
      ensures nameToMetricMaker == RegisterAll(old(nameToMetricMaker), metricMakers)
      ensures changed <==> exists i :: 0 <= i < |metricMakers| && KeyOf(metricMakers[i]) !in old(nameToMetricMaker)
      ensures changed <==> nameToMetricMaker != old(nameToMetricMaker)
    {
      var flag := false;
      for i := 0 to |metricMakers|
        invariant Valid()
        invariant nameToMetricMaker == RegisterAll(old(nameToMetricMaker), metricMakers[..i])
        invariant flag <==> exists j :: 0 <= j < i && KeyOf(metricMakers[j]) !in old(nameToMetricMaker)
      {
        assert metricMakers[..i + 1][..i] == metricMakers[..i];
        RegisterAllKeepsExisting(old(nameToMetricMaker), metricMakers[..i]);
        var added := Add(ToString(metricMakers[i]), metricMakers[i]);
        if !added && KeyOf(metricMakers[i]) !in old(nameToMetricMaker) {
          BatchKeysFrom(metricMakers[..i], KeyOf(metricMakers[i]));
          ghost var j :| 0 <= j < i && KeyOf(metricMakers[..i][j]) == KeyOf(metricMakers[i]);
          assert metricMakers[..i][j] == metricMakers[j];
        }
        flag := added || flag;
      }
      assert metricMakers[..|metricMakers|] == metricMakers;
      RegisterAllKeepsExisting(old(nameToMetricMaker), metricMakers);
      changed := flag;
      if changed {
        ghost var j :| 0 <= j < |metricMakers| && KeyOf(metricMakers[j]) !in old(nameToMetricMaker);
        assert KeyOf(metricMakers[j]) in nameToMetricMaker;
      } else {
        forall k | k in BatchKeys(metricMakers) ensures k in old(nameToMetricMaker) {
          BatchKeysFrom(metricMakers, k);
        }
        assert nameToMetricMaker.Keys == old(nameToMetricMaker).Keys;
      }
    }

    /** `equals`: the same object, or the same name-to-maker map. */
    predicate Equals(that: MetricMakerDictionary)
      reads this, that
      ensures Equals(that) <==> nameToMetricMaker == that.nameToMetricMaker
    {
      this == that || nameToMetricMaker == that.nameToMetricMaker
    }
  }

  /** Lookups ignore case: names with the same lower-case form find the same
      maker, and so does the lower-case form itself. */
  lemma FindByNameIgnoresCase(d: MetricMakerDictionary, a: string, b: string)
    requires Lower(a) == Lower(b)
    ensures d.FindByName(a) == d.FindByName(b)
    ensures d.FindByName(Lower(a)) == d.FindByName(a)
  {
    LowerIsLowerCase(a);
  }

  /** In a valid dictionary every stored key is already lower case, so looking
      it up finds exactly the maker stored under it. */
  lemma FindByNameStoredKey(d: MetricMakerDictionary, k: string)
    requires d.Valid() && k in d.nameToMetricMaker
    ensures d.FindByName(k) == Some(d.nameToMetricMaker[k])
  {
    LowerIsLowerCase(k);
  }

  /** A map has at most as many distinct values as keys. */
  lemma ValuesSize<K, V>(m: map<K, V>)
    ensures |m.Values| <= |m.Keys|
  {
  }

  /** Two dictionaries are equal exactly when their maps hold the same names
      and the same maker under each name. */
  lemma EqualsIffSameMap(a: MetricMakerDictionary, b: MetricMakerDictionary)
    ensures a.Equals(b) <==> (a.nameToMetricMaker.Keys == b.nameToMetricMaker.Keys
                              && forall k :: k in a.nameToMetricMaker ==> a.nameToMetricMaker[k] == b.nameToMetricMaker[k])
  {
  }

  // ---------------------------------------------------------------------------
  // Constructor selection
  // ---------------------------------------------------------------------------

  /** A constructor parameter: the simple name of its type and its name. */
  datatype Parameter = Parameter(typeSimpleName: string, name: string)

  /** A constructor's parameter list, in declaration order. */
  type Signature = seq<Parameter>

  /** A maker template from the configuration: a name, the maker class to
      build, and the names of the parameters it supplies. */
  datatype MetricMakerTemplate = MetricMakerTemplate(name: string, fullyQualifiedClassName: string, paramKeys: set<string>)

  /** Parameters filled from the registry's own dictionaries, not from the
      template. */
  predicate IsDictionaryParameter(p: Parameter)
  {
    p.typeSimpleName == "MetricDictionary" || p.typeSimpleName == "DimensionDictionary"
  }

  /** A parameter the template can fill: a dictionary, or named by the template. */
  predicate Fillable(p: Parameter, keys: set<string>)
  {
    IsDictionaryParameter(p) || p.name in keys
  }

  /** The number of parameters that are not dictionaries. */
  function NamedCount(sig: Signature): (r: nat)
    ensures r <= |sig|
  {
    if sig == [] then 0 else (if IsDictionaryParameter(sig[0]) then 0 else 1) + NamedCount(sig[1..])
  }

  /** A signature fits a template when every parameter can be filled and the
      template's parameters are used in number, one per non-dictionary
      parameter. */
  predicate Fits(sig: Signature, keys: set<string>)
  {
    (forall i :: 0 <= i < |sig| ==> Fillable(sig[i], keys)) && NamedCount(sig) == |keys|
  }

  lemma {:induction false} NamedCountSuffix(sig: Signature, c: nat)
    requires c <= |sig|
    ensures NamedCount(sig[c..]) <= NamedCount(sig)
  {
    if c > 0 {
      assert sig[1..][c - 1..] == sig[c..];
      NamedCountSuffix(sig[1..], c - 1);
    }
  }

  /** The inner loop of the constructor search: scan the parameters from the
      last one, skipping dictionaries and consuming one template parameter per
      named match, until a parameter cannot be filled or the template's
      parameters are overused. */
  method ScanBackward(sig: Signature, keys: set<string>) returns (matched: bool)
    ensures matched <==> Fits(sig, keys)
  {
    var paramsOfConstructor := |sig|;
    var paramsOfMaker := |keys|;
    while paramsOfConstructor > 0 && paramsOfMaker >= 0
      invariant 0 <= paramsOfConstructor <= |sig|
      invariant paramsOfMaker == |keys| - NamedCount(sig[paramsOfConstructor..])
      invariant forall i :: paramsOfConstructor <= i < |sig| ==> Fillable(sig[i], keys)
    {
      var p := sig[paramsOfConstructor - 1];
      assert sig[paramsOfConstructor - 1..][1..] == sig[paramsOfConstructor..];
      if IsDictionaryParameter(p) {
        paramsOfConstructor := paramsOfConstructor - 1;
      } else if p.name in keys {
        paramsOfConstructor := paramsOfConstructor - 1;
        paramsOfMaker := paramsOfMaker - 1;
      } else {
        break;
      }
    }
    matched := paramsOfConstructor == 0 && paramsOfMaker == 0;
    if !matched {
      NamedCountSuffix(sig, paramsOfConstructor);
      if paramsOfConstructor > 0 && paramsOfMaker >= 0 {
        assert !Fillable(sig[paramsOfConstructor - 1], keys);
      }
    } else {
      assert sig[0..] == sig;
    }
  }

  /** The index of the first signature of the list that fits. */
  function FirstFit(constructors: seq<Signature>, keys: set<string>): (r: Option<nat>)
    ensures r.Some? ==> r.value < |constructors| && Fits(constructors[r.value], keys)
    ensures r.Some? ==> forall j :: 0 <= j < r.value ==> !Fits(constructors[j], keys)
    ensures r.None? ==> forall j :: 0 <= j < |constructors| ==> !Fits(constructors[j], keys)
  {
    if constructors == [] then None
    else if Fits(constructors[0], keys) then Some(0)
    else match FirstFit(constructors[1..], keys)
      case None => None
      case Some(k) => Some(k + 1)
  }

  /** Constructor selection for a template. `classes` stands for the class
      loader: for each loadable class, its constructors in the order reflection
      lists them (`getDeclaredConstructors`, an order Java leaves unspecified).
      An unknown class yields no constructor; otherwise the first constructor of
      that list that fits the template is chosen, if one does. */
  method FindConstructor(classes: map<string, seq<Signature>>, maker: MetricMakerTemplate) returns (selected: Option<nat>)
    ensures maker.fullyQualifiedClassName !in classes ==> selected.None?
    ensures maker.fullyQualifiedClassName in classes ==> selected == FirstFit(classes[maker.fullyQualifiedClassName], maker.paramKeys)
  {
    if maker.fullyQualifiedClassName !in classes {
      return None;
    }
    var constructors := classes[maker.fullyQualifiedClassName];
    selected := None;
    var i := 0;
    while i < |constructors|
      invariant 0 <= i <= |constructors|
      invariant forall j :: 0 <= j < i ==> !Fits(constructors[j], maker.paramKeys)
    {
      var fits := ScanBackward(constructors[i], maker.paramKeys);
      if fits {
        selected := Some(i);
        break;
      }
      i := i + 1;
    }
    FirstFitIsFirst(constructors, maker.paramKeys, selected);
  }

  /** `FirstFit` is determined by its contract. */
  lemma FirstFitIsFirst(constructors: seq<Signature>, keys: set<string>, selected: Option<nat>)
    requires selected.Some? ==> selected.value < |constructors| && Fits(constructors[selected.value], keys)
    requires selected.Some? ==> forall j :: 0 <= j < selected.value ==> !Fits(constructors[j], keys)
    requires selected.None? ==> forall j :: 0 <= j < |constructors| ==> !Fits(constructors[j], keys)
    ensures selected == FirstFit(constructors, keys)
  {
  }
}
