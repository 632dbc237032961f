/** Looking a chain up, told by the two tables alone: the registered chains and the alias table. */
module ChainSpellings {
  import opened Common
  import opened ChainText
  import opened Chains

  /** The chain is registered and this is its name or one of its aliases. */
  predicate Listed(chains: seq<ChainInfo>, key: string, info: ChainInfo) {
    info in chains && key in Keys(info)
  }

  /**
   What the tables say of a normalized text: a registered key stands for its chain, and any other key of the alias
   table for the chain registered under what it maps to.
   */
  predicate StandsFor(chains: seq<ChainInfo>, aliases: map<string, string>, key: string, info: ChainInfo) {
    || Listed(chains, key, info)
    || (&& (forall c | c in chains :: key !in Keys(c))
        && key in aliases && aliases[key] != "unknown" && Listed(chains, aliases[key], info))
  }

  /** The registry the module builds from these chains and aliases. */
  ghost predicate BuiltFrom(r: Registry, chains: seq<ChainInfo>) {
    Indexes(r.byName, chains) && Distinct(AllKeys(chains)) && NoEmptyKey(r)
  }

  lemma KeyPlace(chains: seq<ChainInfo>, i: nat, k: string) returns (at: nat)
    requires i < |chains| && k in Keys(chains[i])
    ensures |KeysUpto(chains, i)| <= at < |KeysUpto(chains, i + 1)| <= |AllKeys(chains)| && AllKeys(chains)[at] == k
  {
    var j :| 0 <= j < |Keys(chains[i])| && Keys(chains[i])[j] == k;
    at := |KeysUpto(chains, i)| + j;
    assert KeysUpto(chains, i + 1)[at] == k;
    PrefixKeys(chains, i + 1, |chains|);
  }

  /** Without repeated keys a key belongs to one chain. */
  lemma OneOwner(chains: seq<ChainInfo>, i: nat, j: nat, k: string)
    requires Distinct(AllKeys(chains)) && i <= j < |chains| && k in Keys(chains[i]) && k in Keys(chains[j])
    ensures i == j
  {
    var a := KeyPlace(chains, i, k);
    var b := KeyPlace(chains, j, k);
    if i < j {
      PrefixKeys(chains, i + 1, j);
    }
  }

  lemma IndexedIsListed(r: Registry, chains: seq<ChainInfo>, k: string, info: ChainInfo)
    requires BuiltFrom(r, chains)
    ensures k in r.byName && r.byName[k] == info <==> Listed(chains, k, info)
  {
    if Listed(chains, k, info) {
      var i :| 0 <= i < |chains| && chains[i] == info;
      var at := KeyPlace(chains, i, k);
      var j :| 0 <= j < |chains| && chains[j] == r.byName[k] && k in Keys(chains[j]);
      if i <= j {
        OneOwner(chains, i, j, k);
      } else {
        OneOwner(chains, j, i, k);
      }
    }
  }

  /** A key of some chain is in the index. */
  lemma OwnedIsIndexed(r: Registry, chains: seq<ChainInfo>, k: string)
    requires BuiltFrom(r, chains)
    ensures k in r.byName <==> exists c | c in chains :: k in Keys(c)
  {
    if k in r.byName {
      IndexedIsListed(r, chains, k, r.byName[k]);
    } else if c :| c in chains && k in Keys(c) {
      IndexedIsListed(r, chains, k, c);
    }
  }

  /** A text is looked up as a chain if and only if the tables say that its normalized form stands for that chain. */
  lemma LookupFollowsTables(u: Unicode, r: Registry, chains: seq<ChainInfo>, s: string, info: ChainInfo)
    requires BuiltFrom(r, chains)
    ensures ChainByName(u, r, s) == Some(info) <==> StandsFor(chains, r.aliases, Normalize(u, s), info)
  {
    var n := Normalize(u, s);
    IndexedIsListed(r, chains, n, info);
    OwnedIsIndexed(r, chains, n);
    if n in r.byName {
      IndexedIsListed(r, chains, n, r.byName[n]);
    }
    if n in r.aliases {
      IndexedIsListed(r, chains, r.aliases[n], info);
    }
  }

  /** A key of either table spells this chain in its normalized form. */
  predicate Spells(
    u: Unicode, chains: seq<ChainInfo>, aliases: map<string, string>, key: string, n: string, info: ChainInfo)
  {
    && (key in AllKeys(chains) || key in aliases) && Normalize(u, key) == n && StandsFor(chains, aliases, n, info)
  }

  /** The table of accepted spellings holds exactly what the keys of the two tables spell. */
  ghost predicate IsSpellings(
    u: Unicode, chains: seq<ChainInfo>, aliases: map<string, string>, out: map<string, string>)
  {
    && (forall k, n, info | Spells(u, chains, aliases, k, n, info) :: n in out && out[n] == info.name)
    && (forall n | n in out :: exists k, info :: Spells(u, chains, aliases, k, n, info) && out[n] == info.name)
  }

  lemma StandingIsAKey(chains: seq<ChainInfo>, aliases: map<string, string>, key: string, info: ChainInfo)
    requires StandsFor(chains, aliases, key, info)
    ensures key in AllKeys(chains) || key in aliases
  {
    if info in chains && key in Keys(info) {
      var i :| 0 <= i < |chains| && chains[i] == info;
      var at := KeyPlace(chains, i, key);
    }
  }

  /** A text names a chain exactly if its normalized form is an accepted spelling, and then the chain of that name. */
  lemma SpellingsAreExact(u: Unicode, r: Registry, chains: seq<ChainInfo>, out: map<string, string>, s: string)
    requires Lawful(u) && BuiltFrom(r, chains) && IsSpellings(u, chains, r.aliases, out)
    ensures ChainByName(u, r, s).Some? <==> Normalize(u, s) in out
    ensures ChainByName(u, r, s).Some? ==> out[Normalize(u, s)] == ChainByName(u, r, s).value.name
  {
    var n := Normalize(u, s);
    NormalizeTwice(u, s);
    if ChainByName(u, r, s).Some? {
      var info := ChainByName(u, r, s).value;
      LookupFollowsTables(u, r, chains, s, info);
      StandingIsAKey(chains, r.aliases, n, info);
      assert Spells(u, chains, r.aliases, n, n, info);
    } else if n in out {
      var k, info :| Spells(u, chains, r.aliases, k, n, info) && out[n] == info.name;
      LookupFollowsTables(u, r, chains, s, info);
    }
  }

  type Normalizer = string -> string

  type Finder = string -> Option<ChainInfo>

  /** What these keys resolve to has been collected, and nothing else; `from` tells which key a spelling is of. */
  ghost predicate Collected(
    norm: Normalizer, find: Finder, keys: set<string>, out: map<string, string>, from: map<string, string>)
  {
    && (forall k | k in keys && find(norm(k)).Some? :: norm(k) in out)
    && (forall n | n in out ::
          && n in from && from[n] in keys && norm(from[n]) == n
          && find(n).Some? && out[n] == find(n).value.name)
  }

  /** Look up every key. */
  method CollectSpellings(norm: Normalizer, find: Finder, keys: set<string>)
    returns (out: map<string, string>, ghost from: map<string, string>)
    ensures Collected(norm, find, keys, out, from)
  {
    out, from := map[], map[];
    var rest := keys;
    while rest != {}
      invariant rest <= keys && Collected(norm, find, keys - rest, out, from)
      decreases |rest|
    {
      var k :| k in rest;
      var n := norm(k);
      var info := find(n);
      if info.Some? {
        out, from := out[n := info.value.name], from[n := k];
      }
      rest := rest - {k};
    }
    assert keys - rest == keys;
  }

  /** A key of either table resolves to a chain exactly if it spells it. */
  lemma ResolvingIsSpelling(u: Unicode, r: Registry, chains: seq<ChainInfo>, k: string, n: string, info: ChainInfo)
    requires Lawful(u) && BuiltFrom(r, chains)
    ensures
      Spells(u, chains, r.aliases, k, n, info) <==>
        (k in r.byName || k in r.aliases) && Normalize(u, k) == n && ChainByName(u, r, n) == Some(info)
  {
    NormalizeTwice(u, k);
    LookupFollowsTables(u, r, chains, n, info);
  }

  lemma CollectedIsSpellings(
    u: Unicode, r: Registry, chains: seq<ChainInfo>, norm: Normalizer, find: Finder, out: map<string, string>,
    from: map<string, string>)
    requires Lawful(u) && BuiltFrom(r, chains)
    requires forall s :: norm(s) == Normalize(u, s)
    requires forall s :: find(s) == ChainByName(u, r, s)
    requires Collected(norm, find, r.byName.Keys + r.aliases.Keys, out, from)
    ensures IsSpellings(u, chains, r.aliases, out)
  {
    forall k, n, info | Spells(u, chains, r.aliases, k, n, info) ensures n in out && out[n] == info.name {
      ResolvingIsSpelling(u, r, chains, k, n, info);
      assert norm(k) == n && find(n) == Some(info);
    }
    forall n | n in out ensures exists k, info :: Spells(u, chains, r.aliases, k, n, info) && out[n] == info.name {
      var info := find(n).value;
      ResolvingIsSpelling(u, r, chains, from[n], n, info);
    }
  }

  /** The accepted spellings, each with the chain it names. */
  method AcceptedSpellings(u: Unicode, r: Registry, ghost chains: seq<ChainInfo>) returns (out: map<string, string>)
    requires Lawful(u) && BuiltFrom(r, chains)
    ensures IsSpellings(u, chains, r.aliases, out)
  {
    var norm: Normalizer, find: Finder := s => Normalize(u, s), s => ChainByName(u, r, s);
    ghost var from;
    out, from := CollectSpellings(norm, find, r.byName.Keys + r.aliases.Keys);
    CollectedIsSpellings(u, r, chains, norm, find, out, from);
  }

  // ----- the shipped tables -----

  lemma ShippedIsBuilt(u: Unicode, byName: map<string, ChainInfo>)
    requires Lawful(u) && Indexes(byName, CHAINS)
    ensures BuiltFrom(Registry(byName, ALIASES), CHAINS)
  {
    ShippedRegistryIsIndexed();
    RegistryKeepsTokensApart(u, byName);
  }

  /** Every text that normalizes to a registered name or alias is looked up as that chain. */
  lemma RegisteredNameIsFound(u: Unicode, byName: map<string, ChainInfo>, i: nat, s: string)
    requires Lawful(u) && Indexes(byName, CHAINS) && i < |CHAINS| && Normalize(u, s) in Keys(CHAINS[i])
    ensures ChainByName(u, Registry(byName, ALIASES), s) == Some(CHAINS[i])
  {
    ShippedIsBuilt(u, byName);
    LookupFollowsTables(u, Registry(byName, ALIASES), CHAINS, s, CHAINS[i]);
  }

  /** Lower-case words with single spaces between them. */
  predicate Worded(s: string) {
    && s != [] && 'a' <= s[0] <= 'z' && 'a' <= s[|s| - 1] <= 'z'
    && (forall i | 0 <= i < |s| :: 'a' <= s[i] <= 'z' || s[i] == ' ')
    && (forall i | 0 < i < |s| && s[i] == ' ' :: s[i - 1] != ' ')
  }

  lemma WordedIsNormal(u: Unicode, s: string)
    requires Lawful(u) && Worded(s)
    ensures Normalize(u, s) == s
  {
    assert LawfulLower(u, ' ');
    StripFixed(u, s);
    CollapseFixed(u, s, false);
    LowerFixed(u, s);
  }

  /** Every text that normalizes to an alias, which is no registered key, is looked up as the chain it maps to. */
  lemma AliasIsFound(u: Unicode, byName: map<string, ChainInfo>, i: nat, s: string)
    requires Lawful(u) && Indexes(byName, CHAINS) && i < |CHAINS| && Normalize(u, s) in ALIASES
    requires Normalize(u, s) !in AllKeys(CHAINS) && ALIASES[Normalize(u, s)] in Keys(CHAINS[i])
    ensures ChainByName(u, Registry(byName, ALIASES), s) == Some(CHAINS[i])
  {
    var n := Normalize(u, s);
    ShippedIsBuilt(u, byName);
    LookupFollowsTables(u, Registry(byName, ALIASES), CHAINS, s, CHAINS[i]);
    OwnedIsIndexed(Registry(byName, ALIASES), CHAINS, n);
    ChainsAreLettered(i);
    assert StandsFor(CHAINS, ALIASES, n, CHAINS[i]) by {
      ChainsAreKnown(i);
    }
  }

  lemma NoPlaceNoName(k: string)
    requires PlaceOf(k) == -1
    ensures k !in AllKeys(CHAINS)
  {
    WholeNames();
    if k in NAMES {
      var at :| 0 <= at < |NAMES| && NAMES[at] == k;
      PlaceOfName(at);
    }
  }

  /** No chain is registered as the unknown chain. */
  lemma ChainsAreKnown(i: nat)
    requires i < |CHAINS|
    ensures "unknown" !in Keys(CHAINS[i])
  {
    NoPlaceNoName("unknown");
    if "unknown" in Keys(CHAINS[i]) {
      var at := KeyPlace(CHAINS, i, "unknown");
    }
  }

  /** A plain alias has the token of the chain it maps to. */
  lemma AliasToken(u: Unicode, byName: map<string, ChainInfo>, i: nat, k: string)
    requires Lawful(u) && Indexes(byName, CHAINS) && i < |CHAINS| && Worded(k) && k in ALIASES
    requires k !in AllKeys(CHAINS) && ALIASES[k] in Keys(CHAINS[i])
    ensures CacheToken(u, Registry(byName, ALIASES), Name(k)) == DecimalInt(CHAINS[i].id)
  {
    WordedIsNormal(u, k);
    StripFixed(u, k);
    AliasIsFound(u, byName, i, k);
  }

  lemma PolygonsAlias()
    ensures "matic" in ALIASES && ALIASES["matic"] in Keys(CHAINS[3]) && Worded("matic") && "matic" !in AllKeys(CHAINS)
  {
    assert Keys(CHAINS[3])[0] == "polygon";
    NoPlaceNoName("matic");
  }

  lemma PolygonsId()
    ensures DecimalInt(CHAINS[3].id) == "137"
  {
    assert Decimal(1) == "1" && Decimal(13) == "13" && Decimal(137) == "137";
  }

  /** Polygon's alias has the token of its id. */
  lemma MaticIsPolygon(u: Unicode, byName: map<string, ChainInfo>)
    requires Lawful(u) && Indexes(byName, CHAINS)
    ensures CacheToken(u, Registry(byName, ALIASES), Name("matic")) == "137"
  {
    PolygonsAlias();
    PolygonsId();
    AliasToken(u, byName, 3, "matic");
  }
}
