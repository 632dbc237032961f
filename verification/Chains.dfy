/**
 The chain registry: looking chains up by loose labels, and the cache token every way of naming a chain collapses
 onto.
 */
module Chains {
  import opened Common
  import opened ChainText

  datatype ChainInfo = ChainInfo(id: int, name: string, aliases: seq<string>)

  const CHAINS: seq<ChainInfo> := [
    ChainInfo(1, "ethereum", ["mainnet"]), ChainInfo(42161, "arbitrum", []), ChainInfo(10, "optimism", []),
    ChainInfo(137, "polygon", []), ChainInfo(8453, "base", []), ChainInfo(43114, "avalanche", []),
        ChainInfo(56, "bsc", []),
    ChainInfo(59144, "linea", []), ChainInfo(534352, "scroll", []), ChainInfo(324, "zksync", []),
        ChainInfo(81457, "blast", []),
    ChainInfo(34443, "mode", []), ChainInfo(80094, "berachain", ["bera"])]

  const ALIASES: map<string, string> := map[
    "mainnet" := "ethereum", "eth" := "ethereum", "ethereum" := "ethereum", "ethereum mainnet" := "ethereum",
    "eth mainnet" := "ethereum", "base" := "base", "base mainnet" := "base", "arbitrum" := "arbitrum",
    "arbitrum one" := "arbitrum", "optimism" := "optimism", "optimistic ethereum" := "optimism", "polygon" := "polygon",
    "polygon pos" := "polygon", "matic" := "polygon", "avalanche" := "avalanche", "avalanche c-chain" := "avalanche",
    "avax" := "avalanche", "bsc" := "bsc", "bnb" := "bsc", "bnb chain" := "bsc", "binance smart chain" := "bsc",
    "linea" := "linea", "scroll" := "scroll", "zksync" := "zksync", "zk sync" := "zksync", "blast" := "blast",
    "unknown" := "unknown"]

  /** A registry: the chains by name or alias, and the table of loose spellings. */
  datatype Registry = Registry(byName: map<string, ChainInfo>, aliases: map<string, string>)

  function CanonicalChain(u: Unicode, r: Registry, s: string): Option<string> {
    if Strip(u, s) == [] then None else
    var n := Normalize(u, s);
    Some(if n in r.aliases then r.aliases[n] else n)
  }

  /** Nothing stands for the source's unknown-chain error. */
  function ChainByName(u: Unicode, r: Registry, s: string): Option<ChainInfo> {
    if Strip(u, s) == [] then None else
    var n := Normalize(u, s);
    if n in r.byName then Some(r.byName[n]) else
    match CanonicalChain(u, r, s)
    case None => None
    case Some(c) => if c != [] && c != "unknown" && c in r.byName then Some(r.byName[c]) else None
  }

  /** The empty spelling is no key. */
  predicate NoEmptyKey(r: Registry) {
    "" !in r.byName && "" !in r.aliases
  }

  /** Looking up what a text normalizes to is looking up the text. */
  lemma LookupByNormalized(u: Unicode, r: Registry, s: string)
    requires Lawful(u) && NoEmptyKey(r)
    ensures
      var a, b := ChainByName(u, r, s), ChainByName(u, r, Normalize(u, s));
      a == b && (a.Some? ==> Normalize(u, s) in r.byName || Normalize(u, s) in r.aliases)
  {
    NormalizeTwice(u, s);
    var n := Normalize(u, s);
    if Strip(u, s) == [] {
      assert n == [];
      assert Strip(u, n) == [];
    } else if Strip(u, n) == [] {
      NormalizeIsTrimmed(u, s);
      StripFixed(u, n);
    }
  }

  lemma NormalizeIsTrimmed(u: Unicode, s: string)
    requires Lawful(u)
    ensures Trimmed(u, Normalize(u, s))
  {
    CoreIsFixed(u, s);
    var core := Strip(u, Collapse(u, Strip(u, s), false));
    if core != [] {
      LoweredFirst(u, core);
      LoweredLast(u, core);
    }
  }

  // ----- building the registry -----

  function Keys(info: ChainInfo): seq<string> {
    [info.name] + info.aliases
  }

  /** The keys of the first `n` chains. */
  function KeysUpto(chains: seq<ChainInfo>, n: nat): seq<string>
    requires n <= |chains|
  {
    if n == 0 then [] else KeysUpto(chains, n - 1) + Keys(chains[n - 1])
  }

  function AllKeys(chains: seq<ChainInfo>): seq<string> {
    KeysUpto(chains, |chains|)
  }

  predicate Distinct<T(==)>(xs: seq<T>) {
    forall i, j | 0 <= i < j < |xs| :: xs[i] != xs[j]
  }

  predicate DistinctIdsUpto(chains: seq<ChainInfo>, n: nat)
    requires n <= |chains|
  {
    forall i, j | 0 <= i < j < n :: chains[i].id != chains[j].id
  }

  predicate DistinctIds(chains: seq<ChainInfo>) {
    DistinctIdsUpto(chains, |chains|)
  }

  /** The index has exactly the keys of the first `n` chains, each leading to its chain. */
  ghost predicate IndexesUpto(byName: map<string, ChainInfo>, chains: seq<ChainInfo>, n: nat)
    requires n <= |chains|
  {
    && (forall k :: k in byName <==> k in KeysUpto(chains, n))
    && (forall k | k in byName :: exists i | 0 <= i < n :: chains[i] == byName[k] && k in Keys(chains[i]))
  }

  ghost predicate Indexes(byName: map<string, ChainInfo>, chains: seq<ChainInfo>) {
    IndexesUpto(byName, chains, |chains|)
  }

  lemma {:induction false} PrefixKeys(chains: seq<ChainInfo>, i: nat, n: nat)
    requires i <= n <= |chains|
    ensures KeysUpto(chains, i) <= KeysUpto(chains, n)
    decreases n
  {
    if i < n {
      PrefixKeys(chains, i, n - 1);
    }
  }

  lemma PrefixDistinct<T>(xs: seq<T>, all: seq<T>)
    requires xs <= all
    ensures Distinct(all) ==> Distinct(xs)
  {
    assert forall i | 0 <= i < |xs| :: xs[i] == all[i];
  }

  lemma DuplicateInPrefix(done: seq<string>, key: string, all: seq<string>)
    requires key in done && done + [key] <= all
    ensures !Distinct(all)
  {
    var i :| 0 <= i < |done| && done[i] == key;
    assert all[i] == key && all[|done|] == key;
  }

  /** Add one chain's keys, failing on the first that is taken. */
  method AddKeys(byName0: map<string, ChainInfo>, info: ChainInfo, ghost before: seq<string>)
    returns (byName: Option<map<string, ChainInfo>>)
    requires Distinct(before) && forall k :: k in byName0 <==> k in before
    ensures byName.Some? <==> Distinct(before + Keys(info))
    ensures byName.Some? ==>
      && (forall k :: k in byName.value <==> k in before + Keys(info))
      && (forall k | k in byName.value :: byName.value[k] == if k in byName0 then byName0[k] else info)
  {
    var keys := Keys(info);
    var out := byName0;
    for j := 0 to |keys|
      invariant Distinct(before + keys[..j])
      invariant forall k :: k in out <==> k in before + keys[..j]
      invariant forall k | k in out :: out[k] == if k in byName0 then byName0[k] else info
    {
      assert keys[..j + 1] == keys[..j] + [keys[j]];
      assert before + keys[..j + 1] == (before + keys[..j]) + [keys[j]];
      if keys[j] in out {
        assert (before + keys[..j]) + [keys[j]] <= before + keys;
        DuplicateInPrefix(before + keys[..j], keys[j], before + keys);
        return None;
      }
      out := out[keys[j] := info];
    }
    assert keys[..|keys|] == keys;
    return Some(out);
  }

  /** The index holds the ids of the first `n` chains, each leading to its chain. */
  ghost predicate IndexesIdsUpto(byId: map<int, ChainInfo>, chains: seq<ChainInfo>, n: nat)
    requires n <= |chains|
  {
    && (forall d | d in byId :: exists i | 0 <= i < n :: chains[i] == byId[d] && chains[i].id == d)
    && (forall i | 0 <= i < n :: chains[i].id in byId && byId[chains[i].id] == chains[i])
  }

  ghost predicate IndexesIds(byId: map<int, ChainInfo>, chains: seq<ChainInfo>) {
    IndexesIdsUpto(byId, chains, |chains|)
  }

  lemma AddId(byId: map<int, ChainInfo>, chains: seq<ChainInfo>, n: nat)
    requires n < |chains| && IndexesIdsUpto(byId, chains, n) && DistinctIdsUpto(chains, n)
    ensures DistinctIdsUpto(chains, n + 1) <==> chains[n].id !in byId
    ensures chains[n].id !in byId ==> IndexesIdsUpto(byId[chains[n].id := chains[n]], chains, n + 1)
  {
    if chains[n].id in byId {
      var i :| 0 <= i < n && chains[i] == byId[chains[n].id] && chains[i].id == chains[n].id;
    } else {
      var after := byId[chains[n].id := chains[n]];
      forall d | d in after ensures exists i | 0 <= i < n + 1 :: chains[i] == after[d] && chains[i].id == d {
        if d != chains[n].id {
          var i :| 0 <= i < n && chains[i] == byId[d] && chains[i].id == d;
        }
      }
    }
  }

  lemma AddedKeys(byName: map<string, ChainInfo>, after: map<string, ChainInfo>, chains: seq<ChainInfo>, n: nat)
    requires n < |chains| && IndexesUpto(byName, chains, n)
    requires forall k :: k in after <==> k in KeysUpto(chains, n) + Keys(chains[n])
    requires forall k | k in after :: after[k] == if k in byName then byName[k] else chains[n]
    ensures IndexesUpto(after, chains, n + 1)
  {
    forall k | k in after ensures exists i | 0 <= i < n + 1 :: chains[i] == after[k] && k in Keys(chains[i]) {
      if k in byName {
        var i :| 0 <= i < n && chains[i] == byName[k] && k in Keys(chains[i]);
      } else {
        assert k in Keys(chains[n]);
      }
    }
  }

  /** Index every chain by id and by each of its keys; any duplicate id or key is refused. */
  method BuildIndexes(chains: seq<ChainInfo>) returns (index: Option<(map<int, ChainInfo>, map<string, ChainInfo>)>)
    ensures index.Some? <==> DistinctIds(chains) && Distinct(AllKeys(chains))
    ensures index.Some? ==> IndexesIds(index.value.0, chains) && Indexes(index.value.1, chains)
  {
    var byId: map<int, ChainInfo>, byName: map<string, ChainInfo> := map[], map[];
    for i := 0 to |chains|
      invariant DistinctIdsUpto(chains, i) && Distinct(KeysUpto(chains, i))
      invariant IndexesIdsUpto(byId, chains, i) && IndexesUpto(byName, chains, i)
    {
      PrefixKeys(chains, i + 1, |chains|);
      PrefixDistinct(KeysUpto(chains, i + 1), AllKeys(chains));
      AddId(byId, chains, i);
      if chains[i].id in byId {
        return None;
      }
      byId := byId[chains[i].id := chains[i]];
      var added := AddKeys(byName, chains[i], KeysUpto(chains, i));
      if added.None? {
        return None;
      }
      AddedKeys(byName, added.value, chains, i);
      byName := added.value;
    }
    return Some((byId, byName));
  }

  /** The shipped registry's keys, in order. */
  const NAMES: seq<string> := [
    "ethereum", "mainnet", "arbitrum", "optimism", "polygon", "base", "avalanche", "bsc", "linea", "scroll", "zksync",
    "blast", "mode", "berachain", "bera"]

  lemma KeysAt(i: nat)
    requires 0 < i < 12
    ensures Keys(CHAINS[i]) == [NAMES[i + 1]]
  {
    assert Keys(CHAINS[1]) == [NAMES[2]] && Keys(CHAINS[2]) == [NAMES[3]] && Keys(CHAINS[3]) == [NAMES[4]];
    assert Keys(CHAINS[4]) == [NAMES[5]] && Keys(CHAINS[5]) == [NAMES[6]] && Keys(CHAINS[6]) == [NAMES[7]];
    assert Keys(CHAINS[7]) == [NAMES[8]] && Keys(CHAINS[8]) == [NAMES[9]] && Keys(CHAINS[9]) == [NAMES[10]];
    assert Keys(CHAINS[10]) == [NAMES[11]] && Keys(CHAINS[11]) == [NAMES[12]];
  }

  lemma FirstKeys()
    ensures KeysUpto(CHAINS, 1) == NAMES[..2]
  {
    assert Keys(CHAINS[0]) == NAMES[..2];
    assert KeysUpto(CHAINS, 0) == [];
  }

  lemma {:induction false} PrefixNames(i: nat)
    requires 0 < i <= 12
    ensures KeysUpto(CHAINS, i) == NAMES[..i + 1]
  {
    if i == 1 {
      FirstKeys();
    } else {
      PrefixNames(i - 1);
      KeysAt(i - 1);
      NextName(NAMES, i);
    }
  }

  lemma NextName(names: seq<string>, i: nat)
    requires i < |names|
    ensures names[..i] + [names[i]] == names[..i + 1]
  {}

  lemma WholeNames()
    ensures AllKeys(CHAINS) == NAMES
  {
    PrefixNames(12);
    assert Keys(CHAINS[12]) == NAMES[13..];
    assert NAMES[..13] + NAMES[13..] == NAMES;
  }

  /** A key's place, told by its length and first two letters. */
  function PlaceOf(k: string): int {
    if |k| < 2 then -1 else
    match (|k|, k[0], k[1])
    case (8, 'e', _) => 0
    case (7, 'm', _) => 1
    case (8, 'a', _) => 2
    case (8, 'o', _) => 3
    case (7, 'p', _) => 4
    case (4, 'b', 'a') => 5
    case (9, 'a', _) => 6
    case (3, 'b', _) => 7
    case (5, 'l', _) => 8
    case (6, 's', _) => 9
    case (6, 'z', _) => 10
    case (5, 'b', _) => 11
    case (4, 'm', _) => 12
    case (9, 'b', _) => 13
    case (4, 'b', 'e') => 14
    case _ => -1
  }

  lemma PlaceOfName(i: nat)
    requires i < |NAMES|
    ensures PlaceOf(NAMES[i]) == i
  {
    assert PlaceOf(NAMES[0]) == 0 && PlaceOf(NAMES[1]) == 1 && PlaceOf(NAMES[2]) == 2 && PlaceOf(NAMES[3]) == 3;
    assert PlaceOf(NAMES[4]) == 4 && PlaceOf(NAMES[5]) == 5 && PlaceOf(NAMES[6]) == 6 && PlaceOf(NAMES[7]) == 7;
    assert PlaceOf(NAMES[8]) == 8 && PlaceOf(NAMES[9]) == 9 && PlaceOf(NAMES[10]) == 10 && PlaceOf(NAMES[11]) == 11;
    assert PlaceOf(NAMES[12]) == 12 && PlaceOf(NAMES[13]) == 13;
  }

  /** The shipped registry repeats no id and no key, so its indexes are built. */
  lemma ShippedRegistryIsIndexed()
    ensures DistinctIds(CHAINS) && Distinct(AllKeys(CHAINS)) && AllKeys(CHAINS) == NAMES
  {
    WholeNames();
    forall i, j | 0 <= i < j < |NAMES| ensures NAMES[i] != NAMES[j] {
      PlaceOfName(i);
      PlaceOfName(j);
    }
  }

  /** The indexes as the module builds them when it is loaded. */
  method LoadIndexes() returns (byId: map<int, ChainInfo>, byName: map<string, ChainInfo>)
    ensures IndexesIds(byId, CHAINS) && Indexes(byName, CHAINS)
  {
    ShippedRegistryIsIndexed();
    var index := BuildIndexes(CHAINS);
    return index.value.0, index.value.1;
  }

  /** A key that starts with a lower-case letter. */
  predicate Lettered(k: string) {
    k != [] && 'a' <= k[0] <= 'z'
  }

  predicate InfoLettered(info: ChainInfo) {
    info.id >= 0 && Lettered(info.name) && forall i | 0 <= i < |info.aliases| :: Lettered(info.aliases[i])
  }

  lemma AliasesAreLettered()
    ensures forall k | k in ALIASES :: Lettered(k)
  {}

  lemma {:induction false} ChainsAreLettered(i: nat)
    requires i < |CHAINS|
    ensures InfoLettered(CHAINS[i])
  {
    assert InfoLettered(CHAINS[0]) && InfoLettered(CHAINS[1]) && InfoLettered(CHAINS[2]) && InfoLettered(CHAINS[3]);
    assert InfoLettered(CHAINS[4]) && InfoLettered(CHAINS[5]) && InfoLettered(CHAINS[6]) && InfoLettered(CHAINS[7]);
    assert InfoLettered(CHAINS[8]) && InfoLettered(CHAINS[9]) && InfoLettered(CHAINS[10]) && InfoLettered(CHAINS[11]);
  }

  /** The registry in use keeps chain names, aliases and numbers apart, so the token laws below hold of it. */
  lemma RegistryKeepsTokensApart(u: Unicode, byName: map<string, ChainInfo>)
    requires Lawful(u) && Indexes(byName, CHAINS)
    ensures TokensApart(u, Registry(byName, ALIASES))
  {
    AliasesAreLettered();
    forall k | k in byName ensures Lettered(k) && byName[k].id >= 0 {
      var i :| 0 <= i < |CHAINS| && CHAINS[i] == byName[k];
      ChainsAreLettered(i);
    }
    forall k | k in byName || k in ALIASES ensures !IsDigits(u, k) {
      assert Lettered(k);
    }
  }

  /** No chain's key is longer than nine characters. */
  predicate InfoShort(info: ChainInfo) {
    |info.name| <= 9 && forall i | 0 <= i < |info.aliases| :: |info.aliases[i]| <= 9
  }

  lemma ChainsAreShort(i: nat)
    requires i < |CHAINS|
    ensures InfoShort(CHAINS[i])
  {
    assert InfoShort(CHAINS[0]) && InfoShort(CHAINS[1]) && InfoShort(CHAINS[2]) && InfoShort(CHAINS[3]);
    assert InfoShort(CHAINS[4]) && InfoShort(CHAINS[5]) && InfoShort(CHAINS[6]) && InfoShort(CHAINS[7]);
    assert InfoShort(CHAINS[8]) && InfoShort(CHAINS[9]) && InfoShort(CHAINS[10]) && InfoShort(CHAINS[11]);
  }

  /** Words of lower-case letters are no separators and stay as they are. */
  predicate Letters(s: string) {
    s != [] && forall i | 0 <= i < |s| :: 'a' <= s[i] <= 'z'
  }

  lemma CollapseLetters(u: Unicode, word: string, rest: string, inRun: bool)
    requires Lawful(u) && Letters(word)
    ensures Collapse(u, word + rest, inRun) == word + Collapse(u, rest, false)
  {
    CollapseWord(u, word, rest, inRun);
  }

  lemma CollapseSeparated(u: Unicode, c: char, rest: string)
    requires Separator(u, c)
    ensures Collapse(u, [c] + rest, false) == [' '] + Collapse(u, rest, true)
  {
    assert ([c] + rest)[1..] == rest;
  }

  lemma DashedCollapses(u: Unicode, a: string, b: string, c: string)
    requires Lawful(u) && Letters(a) && Letters(b) && Letters(c)
    ensures Collapse(u, a + ([' '] + (b + (['-'] + (c + [])))), false) == a + ([' '] + (b + ([' '] + c)))
  {
    CollapseLetters(u, a, [' '] + (b + (['-'] + (c + []))), false);
    CollapseSeparated(u, ' ', b + (['-'] + (c + [])));
    CollapseLetters(u, b, ['-'] + (c + []), true);
    CollapseSeparated(u, '-', c + []);
    CollapseLetters(u, c, [], true);
    assert c + [] == c;
  }

  /** A dash between words reads like a space. */
  lemma DashedNormalizes(u: Unicode, a: string, b: string, c: string)
    requires Lawful(u) && Letters(a) && Letters(b) && Letters(c)
    ensures Normalize(u, a + ([' '] + (b + (['-'] + (c + []))))) == a + ([' '] + (b + ([' '] + c)))
  {
    var text := a + ([' '] + (b + (['-'] + (c + []))));
    var plain := a + ([' '] + (b + ([' '] + c)));
    assert text[|text| - 1] == c[|c| - 1] && text[0] == a[0];
    StripFixed(u, text);
    DashedCollapses(u, a, b, c);
    assert plain[|plain| - 1] == c[|c| - 1] && plain[0] == a[0];
    StripFixed(u, plain);
    PlainIsLower(u, a, b, c);
  }

  lemma PlainIsLower(u: Unicode, a: string, b: string, c: string)
    requires Lawful(u) && Letters(a) && Letters(b) && Letters(c)
    ensures Lower(u, a + ([' '] + (b + ([' '] + c)))) == a + ([' '] + (b + ([' '] + c)))
  {
    assert LawfulLower(u, ' ');
    LowerFixed(u, a);
    LowerFixed(u, b);
    LowerFixed(u, c);
    LowerFixed(u, [' ']);
    LowerAppend(u, a, [' '] + (b + ([' '] + c)));
    LowerAppend(u, [' '], b + ([' '] + c));
    LowerAppend(u, b, [' '] + c);
    LowerAppend(u, [' '], c);
  }

  lemma DashedKeyNormalizes(u: Unicode)
    requires Lawful(u)
    ensures Normalize(u, "avalanche c-chain") == "avalanche c chain"
  {
    DashedNormalizes(u, "avalanche", "c", "chain");
    assert "avalanche c-chain" == "avalanche" + ([' '] + ("c" + (['-'] + ("chain" + []))));
    assert "avalanche c chain" == "avalanche" + ([' '] + ("c" + ([' '] + "chain")));
  }

  lemma PlainKeyIsNoName(byName: map<string, ChainInfo>)
    requires Indexes(byName, CHAINS)
    ensures "avalanche c chain" !in byName
  {
    forall k | k in byName ensures |k| <= 9 {
      var i :| 0 <= i < |CHAINS| && CHAINS[i] == byName[k];
      ChainsAreShort(i);
    }
  }

  lemma PlainKeyIsNoAlias()
    ensures "avalanche c chain" !in ALIASES && "avalanche c-chain" in ALIASES
  {
    assert "avalanche c chain"[11] == ' ' && "avalanche c-chain"[11] == '-';
  }

  /**
   One entry of the alias table can never match: its key is no normal form, so no text normalizes to it, and
   looking the key itself up fails.
   */
  lemma DashedAliasIsDead(u: Unicode, byName: map<string, ChainInfo>, s: string)
    requires Lawful(u) && Indexes(byName, CHAINS)
    ensures "avalanche c-chain" in ALIASES && Normalize(u, s) != "avalanche c-chain"
    ensures ChainByName(u, Registry(byName, ALIASES), "avalanche c-chain").None?
  {
    DashedKeyNormalizes(u);
    PlainKeyIsNoName(byName);
    PlainKeyIsNoAlias();
    NormalForms(u, "avalanche c-chain");
  }

  // ----- decimal text -----

  function DigitChar(d: nat): char
    requires d < 10
  {
    ('0' as int + d) as char
  }

  function Decimal(n: nat): string {
    if n < 10 then [DigitChar(n)] else Decimal(n / 10) + [DigitChar(n % 10)]
  }

  function DecimalInt(n: int): string {
    if n < 0 then "-" + Decimal(-n) else Decimal(n)
  }

  function Parse(s: string): int {
    if s == [] then 0 else 10 * Parse(s[..|s| - 1]) + (s[|s| - 1] as int - '0' as int)
  }

  lemma {:induction false} ParseDecimal(n: nat)
    ensures Parse(Decimal(n)) == n && Decimal(n) != [] && forall i | 0 <= i < |Decimal(n)| ::
        '0' <= Decimal(n)[i] <= '9'
  {
    if n < 10 {
      assert Parse([]) == 0;
      assert Decimal(n)[..0] == [];
    } else {
      ParseDecimal(n / 10);
      assert Decimal(n)[..|Decimal(n)| - 1] == Decimal(n / 10);
    }
  }

  // ----- cache tokens -----

  /** The ways a caller names a chain. */
  datatype Chain = NoChain | Id(id: int) | Name(text: string)

  function CacheToken(u: Unicode, r: Registry, chain: Chain): string {
    match chain
    case NoChain => "1"
    case Id(id) => DecimalInt(id)
    case Name(name) =>
      var text := Strip(u, name);
      if text == [] then "1"
      else if IsDigits(u, text) then text
      else match ChainByName(u, r, text)
        case Some(info) => DecimalInt(info.id)
        case None => Lower(u, text)
  }

  /** Keys are not numbers, and chain ids are not negative. */
  ghost predicate TokensApart(u: Unicode, r: Registry) {
    && NoEmptyKey(r)
    && (forall k | k in r.byName || k in r.aliases :: !IsDigits(u, k))
    && (forall k | k in r.byName :: r.byName[k].id >= 0)
  }

  lemma DecimalIsDigits(u: Unicode, n: nat)
    requires Lawful(u)
    ensures IsDigits(u, Decimal(n)) && Trimmed(u, Decimal(n)) && Lower(u, Decimal(n)) == Decimal(n)
        && NoSeparators(u, Decimal(n))
  {
    ParseDecimal(n);
    LowerFixed(u, Decimal(n));
  }

  lemma {:induction false} LoweredDigits(u: Unicode, s: string)
    requires Lawful(u)
    ensures IsDigits(u, Lower(u, s)) <==> IsDigits(u, s)
  {
    if s != [] {
      assert LawfulLower(u, s[0]);
      var low, rest := u.lower(s[0]), Lower(u, s[1..]);
      LoweredDigits(u, s[1..]);
      assert Lower(u, s) == low + rest;
      if IsDigits(u, Lower(u, s)) {
        forall d | d in low ensures u.digit(d) {
          var i :| 0 <= i < |low| && low[i] == d;
          assert Lower(u, s)[i] == d;
        }
        forall i | 0 <= i < |rest| ensures u.digit(rest[i]) {
          assert Lower(u, s)[|low| + i] == rest[i];
        }
        EmptyLowered(u, s[1..]);
      }
      if IsDigits(u, s) {
        assert forall i | 0 <= i < |s[1..]| :: s[1..][i] == s[i + 1];
        forall i | 0 <= i < |Lower(u, s)| ensures u.digit(Lower(u, s)[i]) {
          if i < |low| {
            assert low[i] in low;
          } else {
            assert rest != [];
            EmptyLowered(u, s[1..]);
          }
        }
      }
    }
  }

  lemma EmptyLowered(u: Unicode, s: string)
    requires Lawful(u)
    ensures Lower(u, s) == [] <==> s == []
  {
    if s != [] {
      LoweredFirst(u, s);
    }
  }

  lemma LoweredIsTrimmed(u: Unicode, s: string)
    requires Lawful(u) && Trimmed(u, s)
    ensures Trimmed(u, Lower(u, s))
  {
    if s != [] {
      LoweredFirst(u, s);
      LoweredLast(u, s);
    }
  }

  /** A name the registry does not know is its own bucket, and stays it. */
  lemma UnknownNameToken(u: Unicode, r: Registry, text: string)
    requires Lawful(u) && NoEmptyKey(r) && Trimmed(u, text) && text != [] && !IsDigits(u, text)
        && ChainByName(u, r, text).None?
    ensures CacheToken(u, r, Name(Lower(u, text))) == Lower(u, text) && !IsDigits(u, Lower(u, text))
  {
    var low := Lower(u, text);
    LoweredIsTrimmed(u, text);
    StripFixed(u, low);
    EmptyLowered(u, text);
    LoweredDigits(u, text);
    NormalizeLowered(u, text);
    LookupByNormalized(u, r, text);
    LookupByNormalized(u, r, low);
    LowerTwice(u, text);
  }

  lemma DigitsToken(u: Unicode, r: Registry, n: nat)
    requires Lawful(u)
    ensures CacheToken(u, r, Name(Decimal(n))) == Decimal(n)
  {
    DecimalIsDigits(u, n);
    StripFixed(u, Decimal(n));
  }

  /** A negative id's text names no chain. */
  lemma NegativeToken(u: Unicode, r: Registry, n: nat)
    requires Lawful(u) && TokensApart(u, r)
    ensures CacheToken(u, r, Name("-" + Decimal(n))) == "-" + Decimal(n)
  {
    var digits, text := Decimal(n), "-" + Decimal(n);
    DecimalIsDigits(u, n);
    assert Separator(u, '-') && LawfulLower(u, '-');
    assert text[0] == '-' && text[1..] == digits && text[|text| - 1] == digits[|digits| - 1];
    StripFixed(u, text);
    assert !IsDigits(u, text);
    assert Normalize(u, text) == digits by {
      assert digits + [] == digits;
      CollapseWord(u, digits, [], true);
      assert Collapse(u, text, false) == " " + digits;
      assert (" " + digits)[1..] == digits;
      assert StripLeft(u, " " + digits) == digits;
      StripFixed(u, digits);
    }
    assert Lower(u, "-") == "-";
    LowerAppend(u, "-", digits);
  }

  lemma OneIsDecimal()
    ensures "1" == Decimal(1)
  {}

  /** Taking the token of a token changes nothing. */
  lemma TokenTwice(u: Unicode, r: Registry, chain: Chain)
    requires Lawful(u) && TokensApart(u, r)
    ensures CacheToken(u, r, Name(CacheToken(u, r, chain))) == CacheToken(u, r, chain)
  {
    OneIsDecimal();
    DigitsToken(u, r, 1);
    match chain {
      case NoChain =>
      case Id(id) => if id < 0 { NegativeToken(u, r, -id); } else { DigitsToken(u, r, id); }
      case Name(name) =>
        var text := Strip(u, name);
        var from := StripTrims(u, name);
        StripFixed(u, text);
        if text != [] && !IsDigits(u, text) {
          if ChainByName(u, r, text).Some? {
            FoundIsRegistered(u, r, text);
            DigitsToken(u, r, ChainByName(u, r, text).value.id);
          } else {
            UnknownNameToken(u, r, text);
          }
        }
    }
  }

  lemma FoundIsRegistered(u: Unicode, r: Registry, text: string)
    requires ChainByName(u, r, text).Some?
    ensures exists k | k in r.byName :: r.byName[k] == ChainByName(u, r, text).value
  {}

  /** The number a text of digits is read as, if each of them has a value. */
  function ReadDigits(u: Unicode, s: string): Option<nat> {
    if s == [] then Some(0) else
    match (ReadDigits(u, s[..|s| - 1]), u.value(s[|s| - 1]))
    case (Some(high), Some(low)) => Some(10 * high + low)
    case _ => None
  }

  /** The id of the chain a caller means: by id, by number, by any accepted name, or mainnet by default. */
  function Denoted(u: Unicode, r: Registry, chain: Chain): Option<int> {
    match chain
    case NoChain => Some(1)
    case Id(id) => Some(id)
    case Name(name) =>
      var text := Strip(u, name);
      if text == [] then Some(1)
      else if IsDigits(u, text) then
        match ReadDigits(u, text) case Some(n) => Some(n) case None => None
      else
        match ChainByName(u, r, text) case Some(info) => Some(info.id) case None => None
  }

  /** In ASCII digits, and without a leading zero unless it is the only digit. */
  predicate PlainNumber(t: string) {
    t != [] && (forall i | 0 <= i < |t| :: '0' <= t[i] <= '9') && (|t| == 1 || t[0] != '0')
  }

  /** If the chain is named by a number, the number is plain. */
  predicate Canonical(u: Unicode, chain: Chain) {
    chain.Name? && IsDigits(u, Strip(u, chain.text)) ==> PlainNumber(Strip(u, chain.text))
  }

  function ParseInt(s: string): int {
    if s != [] && s[0] == '-' then -Parse(s[1..]) else Parse(s)
  }

  /** Decimal text can be read back. */
  lemma ParseDecimalInt(n: int)
    ensures ParseInt(DecimalInt(n)) == n
  {
    ParseDecimal(if n < 0 then -n else n);
    if n < 0 {
      assert DecimalInt(n)[1..] == Decimal(-n);
    }
  }

  lemma {:induction false} ReadDecimal(u: Unicode, n: nat)
    requires Lawful(u)
    ensures ReadDigits(u, Decimal(n)) == Some(n)
  {
    if n < 10 {
      assert Decimal(n)[..0] == [];
      assert ReadDigits(u, Decimal(n)[..0]) == Some(0);
    } else {
      ReadDecimal(u, n / 10);
      assert Decimal(n)[..|Decimal(n)| - 1] == Decimal(n / 10);
    }
  }

  lemma {:induction false} DecimalIsPlain(n: nat)
    ensures PlainNumber(Decimal(n)) && (n > 0 ==> Decimal(n)[0] != '0')
  {
    if n >= 10 {
      DecimalIsPlain(n / 10);
    }
  }

  /** A plain number is the decimal text of what it reads as. */
  lemma {:induction false} PlainIsDecimal(u: Unicode, t: string)
    requires Lawful(u) && PlainNumber(t)
    ensures ReadDigits(u, t).Some? && Decimal(ReadDigits(u, t).value) == t
    ensures ReadDigits(u, t).value == 0 ==> t == "0"
    decreases |t|
  {
    var low := t[|t| - 1] as int - '0' as int;
    assert u.value(t[|t| - 1]) == Some(low) && DigitChar(low) == t[|t| - 1];
    if |t| == 1 {
      assert t[..0] == [] && ReadDigits(u, t[..0]) == Some(0);
    } else {
      var high := t[..|t| - 1];
      PlainIsDecimal(u, high);
      assert high != "0";
      var n := ReadDigits(u, high).value;
      assert t == high + [t[|t| - 1]];
      assert (10 * n + low) / 10 == n && (10 * n + low) % 10 == low;
    }
  }

  /** A number shares the token of an id exactly if it reads as that id and is plain. */
  lemma NumberToken(u: Unicode, r: Registry, name: string, id: nat)
    requires Lawful(u) && IsDigits(u, Strip(u, name))
    ensures
      CacheToken(u, r, Name(name)) == CacheToken(u, r, Id(id)) <==>
        ReadDigits(u, Strip(u, name)) == Some(id) && PlainNumber(Strip(u, name))
  {
    var t := Strip(u, name);
    DecimalIsPlain(id);
    ReadDecimal(u, id);
    if PlainNumber(t) {
      PlainIsDecimal(u, t);
    }
  }

  /** A way to name a chain gets that chain's token if and only if, being a number, it is plain. */
  lemma TokenIsTheChains(u: Unicode, r: Registry, chain: Chain)
    requires Lawful(u) && Denoted(u, r, chain).Some?
    ensures CacheToken(u, r, chain) == DecimalInt(Denoted(u, r, chain).value) <==> Canonical(u, chain)
  {
    OneIsDecimal();
    if chain.Name? && IsDigits(u, Strip(u, chain.text)) {
      NumberToken(u, r, chain.text, Denoted(u, r, chain).value);
    }
  }

  /** No two chains share a token, however they are named; one chain's canonical names do. */
  lemma TokensTellChainsApart(u: Unicode, r: Registry, a: Chain, b: Chain)
    requires Lawful(u) && Denoted(u, r, a).Some? && Denoted(u, r, b).Some?
    ensures CacheToken(u, r, a) == CacheToken(u, r, b) ==> Denoted(u, r, a) == Denoted(u, r, b)
    ensures Canonical(u, a) && Canonical(u, b) && Denoted(u, r, a) == Denoted(u, r, b) ==>
        CacheToken(u, r, a) == CacheToken(u, r, b)
  {
    TokenIsTheChains(u, r, a);
    TokenIsTheChains(u, r, b);
    ParseDecimalInt(Denoted(u, r, a).value);
    ParseDecimalInt(Denoted(u, r, b).value);
    if CacheToken(u, r, a) == CacheToken(u, r, b) {
      NumbersAgree(u, r, a, b);
      NumbersAgree(u, r, b, a);
    }
  }

  lemma NegativeIsNoNumber(u: Unicode, id: int)
    requires Lawful(u)
    ensures id < 0 ==> !IsDigits(u, DecimalInt(id))
  {
    if id < 0 {
      assert DecimalInt(id)[0] == '-';
    }
  }

  /** A number with another chain's token reads as that chain's id. */
  lemma NumbersAgree(u: Unicode, r: Registry, a: Chain, b: Chain)
    requires Lawful(u) && Denoted(u, r, a).Some? && Denoted(u, r, b).Some? && CacheToken(u, r, a) == CacheToken(u, r, b)
    ensures a.Name? && IsDigits(u, Strip(u, a.text)) && Canonical(u, b) ==> Denoted(u, r, a) == Denoted(u, r, b)
  {
    if a.Name? && IsDigits(u, Strip(u, a.text)) && Canonical(u, b) {
      TokenIsTheChains(u, r, b);
      var id := Denoted(u, r, b).value;
      NegativeIsNoNumber(u, id);
      if id >= 0 {
        ReadDecimal(u, id);
      }
    }
  }

  /** The text "01" reads as mainnet's id but has a token of its own. */
  lemma LeadingZeroIsApart(u: Unicode, r: Registry)
    requires Lawful(u)
    ensures Denoted(u, r, Name("01")) == Denoted(u, r, Id(1)) && CacheToken(u, r, Name("01")) != CacheToken(u, r, Id(1))
  {
    var text := "01";
    assert text[..1] == "0" && text[..1][..0] == [];
    assert ReadDigits(u, []) == Some(0);
    assert ReadDigits(u, text[..1]) == Some(0);
    assert ReadDigits(u, text) == Some(1);
    assert forall c: char | '0' <= c <= '9' :: !Separator(u, c);
    StripFixed(u, text);
    assert Decimal(1) == "1";
  }

  /** A name that is neither a number nor registered is its own lower-cased bucket, and never that of a chain id. */
  lemma UnknownNamesStayApart(u: Unicode, r: Registry, name: string, id: nat)
    requires Lawful(u) && NoEmptyKey(r)
    requires Strip(u, name) != [] && !IsDigits(u, Strip(u, name)) && ChainByName(u, r, Strip(u, name)).None?
    ensures CacheToken(u, r, Name(name)) == Lower(u, Strip(u, name)) != DecimalInt(id)
  {
    var from := StripTrims(u, name);
    UnknownNameToken(u, r, Strip(u, name));
    DecimalIsDigits(u, id);
  }
}
