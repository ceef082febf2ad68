/**
 * src/lib/ens.ts: reading the wallet input. The input is one address or ENS name, or several
 * separated by ',' or '+'. ENS forward and reverse lookup (through viem, after ENS name
 * normalisation) and viem's `isAddress` are oracles, bundled in a `Resolver`.
 */
module Ens {
  import opened Wrappers
  import opened Strings

  /** isENS: `input.endsWith(".eth")` */
  predicate IsENS(input: string) {
    EndsWith(input, ".eth")
  }

  /** isENS holds exactly for the strings that are some prefix followed by ".eth". */
  lemma IsENSSpec(input: string)
    ensures IsENS(input) <==> exists name :: input == name + ".eth"
  {
    EndsWithConcat(input, ".eth");
  }

  /** The character class `[,+]`. */
  predicate IsSeparator(c: char) {
    c == ',' || c == '+'
  }

  predicate NoSeparator(s: string) {
    forall i :: 0 <= i < |s| ==> !IsSeparator(s[i])
  }

  /** isMultiWallet: `input.includes(",") || input.includes("+")` */
  predicate IsMultiWallet(input: string) {
    ',' in input || '+' in input
  }

  /** `s.split(/[,+]/)`: the pieces between separators, empty ones included. */
  function Split(s: string): (pieces: seq<string>)
    ensures |pieces| >= 1
    ensures forall i :: 0 <= i < |pieces| ==> NoSeparator(pieces[i])
  {
    if s == [] then [""]
    else
      var rest := Split(s[1..]);
      if IsSeparator(s[0]) then [""] + rest else [[s[0]] + rest[0]] + rest[1..]
  }

  /** `pieces.join("+")` */
  function Join(pieces: seq<string>): string {
    if pieces == [] then ""
    else if |pieces| == 1 then pieces[0]
    else pieces[0] + "+" + Join(pieces[1..])
  }

  /** The input with every separator written as '+'. */
  function PlusSeparated(s: string): (r: string)
    ensures |r| == |s|
    ensures forall i :: 0 <= i < |s| ==> r[i] == if IsSeparator(s[i]) then '+' else s[i]
  {
    seq(|s|, i requires 0 <= i < |s| => if IsSeparator(s[i]) then '+' else s[i])
  }

  /** `.map((s) => s.trim()).filter(Boolean)` */
  function TrimNonEmpty(pieces: seq<string>): (parts: seq<string>)
    ensures |parts| <= |pieces|
  {
    if pieces == [] then []
    else
      var t := Trim(pieces[0]);
      var rest := TrimNonEmpty(pieces[1..]);
      if t != "" then [t] + rest else rest
  }

  /** The parts of the input: split on separators, trimmed, empty ones dropped. */
  function Parts(input: string): seq<string> {
    TrimNonEmpty(Split(input))
  }

  /** toUrlPath */
  function ToUrlPath(input: string): string {
    Join(Parts(input))
  }

  // ---------------------------------------------------------------- split and join

  /** A piece without separators is its own split. */
  lemma {:induction false} SplitNoSeparator(p: string)
    requires NoSeparator(p)
    ensures Split(p) == [p]
  {
    if p != [] {
      SplitNoSeparator(p[1..]);
      assert [p[0]] + p[1..] == p;
    }
  }

  /** Splitting at the first separator. */
  lemma {:induction false} SplitAt(p: string, c: char, t: string)
    requires NoSeparator(p) && IsSeparator(c)
    ensures Split(p + [c] + t) == [p] + Split(t)
  {
    var s := p + [c] + t;
    if p == [] {
      assert s[1..] == t;
    } else {
      assert s[1..] == p[1..] + [c] + t;
      SplitAt(p[1..], c, t);
      assert [p[0]] + p[1..] == p;
    }
  }

  /** Joining pieces that hold no separator and splitting again gives the pieces back. */
  lemma {:induction false} SplitJoin(pieces: seq<string>)
    requires pieces != []
    requires forall i :: 0 <= i < |pieces| ==> NoSeparator(pieces[i])
    ensures Split(Join(pieces)) == pieces
  {
    if |pieces| == 1 {
      SplitNoSeparator(pieces[0]);
    } else {
      SplitJoin(pieces[1..]);
      SplitAt(pieces[0], '+', Join(pieces[1..]));
      assert pieces[0] + "+" + Join(pieces[1..]) == pieces[0] + ['+'] + Join(pieces[1..]);
    }
  }

  /** Splitting and joining with '+' only rewrites each separator as '+'. */
  lemma {:induction false} JoinSplit(s: string)
    ensures Join(Split(s)) == PlusSeparated(s)
  {
    if s != [] {
      var rest := Split(s[1..]);
      JoinSplit(s[1..]);
      if IsSeparator(s[0]) {
        assert Split(s) == [""] + rest;
        assert PlusSeparated(s) == "+" + PlusSeparated(s[1..]);
      } else {
        JoinCons(s[0], rest);
        assert PlusSeparated(s) == [s[0]] + PlusSeparated(s[1..]);
      }
    }
  }

  /** Prepending a character to the first piece prepends it to the joined string. */
  lemma JoinCons(c: char, pieces: seq<string>)
    requires pieces != []
    ensures Join([[c] + pieces[0]] + pieces[1..]) == [c] + Join(pieces)
  {
    var ps := [[c] + pieces[0]] + pieces[1..];
    assert ps[1..] == pieces[1..];
  }

  /** isMultiWallet holds exactly when splitting yields more than one piece. */
  lemma {:induction false} MultiWalletSplit(s: string)
    ensures IsMultiWallet(s) <==> |Split(s)| > 1
  {
    if s != [] {
      MultiWalletSplit(s[1..]);
      assert s == [s[0]] + s[1..];
      assert IsMultiWallet(s) <==> IsSeparator(s[0]) || IsMultiWallet(s[1..]);
    }
  }

  // ---------------------------------------------------------------- toUrlPath

  /** Trimming leaves no white space at either end and brings in no separator. */
  lemma TrimShape(p: string)
    ensures IsTrimmed(Trim(p))
    ensures NoSeparator(p) ==> NoSeparator(Trim(p))
    ensures IsTrimmed(p) ==> Trim(p) == p
  {
    TrimSpec(p);
  }

  /** The parts are non-empty, trimmed, and hold no separator when the pieces hold none. */
  lemma TrimNonEmptySpec(pieces: seq<string>)
    ensures forall i :: 0 <= i < |TrimNonEmpty(pieces)| ==>
              && TrimNonEmpty(pieces)[i] != ""
              && IsTrimmed(TrimNonEmpty(pieces)[i])
              && (NoSeparatorAll(pieces) ==> NoSeparator(TrimNonEmpty(pieces)[i]))
  {
    forall i | 0 <= i < |TrimNonEmpty(pieces)| {
      TrimNonEmptyAt(pieces, i);
    }
  }

  lemma TrimNonEmptyAt(pieces: seq<string>, i: nat)
    requires i < |TrimNonEmpty(pieces)|
    ensures var p := TrimNonEmpty(pieces)[i];
      p != "" && IsTrimmed(p) && (NoSeparatorAll(pieces) ==> NoSeparator(p))
  {
    TrimNonEmptyPart(pieces, i);
    if NoSeparatorAll(pieces) {
      TrimNonEmptyNoSeparator(pieces, i);
    }
  }

  /** Every part is the trim of a piece, and not empty. */
  lemma {:induction false} TrimNonEmptyPart(pieces: seq<string>, i: nat)
    requires i < |TrimNonEmpty(pieces)|
    ensures exists j :: 0 <= j < |pieces| && TrimNonEmpty(pieces)[i] == Trim(pieces[j])
    ensures TrimNonEmpty(pieces)[i] != ""
    ensures IsTrimmed(TrimNonEmpty(pieces)[i])
    decreases |pieces|
  {
    var t := Trim(pieces[0]);
    if t == "" {
      TrimNonEmptyCons(pieces);
      TrimNonEmptyPart(pieces[1..], i);
      var j :| 0 <= j < |pieces[1..]| && TrimNonEmpty(pieces[1..])[i] == Trim(pieces[1..][j]);
      assert pieces[1..][j] == pieces[j + 1];
    } else if i == 0 {
      TrimNonEmptyConsAt(pieces, i);
      TrimShape(pieces[0]);
    } else {
      TrimNonEmptyConsAt(pieces, i);
      TrimNonEmptyPart(pieces[1..], i - 1);
      var j :| 0 <= j < |pieces[1..]| && TrimNonEmpty(pieces[1..])[i - 1] == Trim(pieces[1..][j]);
      assert pieces[1..][j] == pieces[j + 1];
    }
  }

  lemma TrimNonEmptyNoSeparator(pieces: seq<string>, i: nat)
    requires i < |TrimNonEmpty(pieces)|
    requires NoSeparatorAll(pieces)
    ensures NoSeparator(TrimNonEmpty(pieces)[i])
  {
    TrimNonEmptyPart(pieces, i);
    var j :| 0 <= j < |pieces| && TrimNonEmpty(pieces)[i] == Trim(pieces[j]);
    TrimShape(pieces[j]);
  }

  /** One step of `.map(trim).filter(Boolean)`. */
  lemma TrimNonEmptyCons(pieces: seq<string>)
    requires pieces != []
    ensures Trim(pieces[0]) != "" ==> TrimNonEmpty(pieces) == [Trim(pieces[0])] + TrimNonEmpty(pieces[1..])
    ensures Trim(pieces[0]) == "" ==> TrimNonEmpty(pieces) == TrimNonEmpty(pieces[1..])
  {
  }

  lemma TrimNonEmptyConsAt(pieces: seq<string>, i: nat)
    requires pieces != [] && Trim(pieces[0]) != ""
    requires i < |TrimNonEmpty(pieces)|
    ensures i == 0 ==> TrimNonEmpty(pieces)[i] == Trim(pieces[0])
    ensures i > 0 ==> i - 1 < |TrimNonEmpty(pieces[1..])|
    ensures i > 0 ==> TrimNonEmpty(pieces)[i] == TrimNonEmpty(pieces[1..])[i - 1]
  {
    var t, rest := Trim(pieces[0]), TrimNonEmpty(pieces[1..]);
    assert TrimNonEmpty(pieces) == [t] + rest;
  }

  lemma NoSeparatorAllTail(pieces: seq<string>)
    requires pieces != []
    ensures NoSeparatorAll(pieces) ==> NoSeparatorAll(pieces[1..]) && NoSeparator(pieces[0])
  {
    if NoSeparatorAll(pieces) {
      forall i | 0 <= i < |pieces| - 1
        ensures NoSeparator(pieces[1..][i])
      {
        assert pieces[1..][i] == pieces[i + 1];
      }
    }
  }

  predicate NoSeparatorAll(pieces: seq<string>) {
    forall i :: 0 <= i < |pieces| ==> NoSeparator(pieces[i])
  }

  /** A part is a non-empty trimmed piece that holds no separator. */
  lemma PartsShape(input: string)
    ensures forall i :: 0 <= i < |Parts(input)| ==>
              Parts(input)[i] != "" && IsTrimmed(Parts(input)[i]) && NoSeparator(Parts(input)[i])
  {
    TrimNonEmptySpec(Split(input));
  }

  /**
   * The segments of toUrlPath(s), split at '+', are exactly the parts of s; the result is empty
   * exactly when there are none; it holds no ',' and, when not empty, no empty segment.
   */
  lemma ToUrlPathSpec(input: string)
    ensures Parts(input) != [] ==> Split(ToUrlPath(input)) == Parts(input)
    ensures Parts(input) == [] <==> ToUrlPath(input) == ""
    ensures ',' !in ToUrlPath(input)
    ensures ToUrlPath(input) != "" ==> forall i :: 0 <= i < |Split(ToUrlPath(input))| ==> Split(ToUrlPath(input))[i] != ""
  {
    var parts := Parts(input);
    PartsShape(input);
    if parts != [] {
      SplitJoin(parts);
      JoinSplit(ToUrlPath(input));
      assert ',' !in PlusSeparated(ToUrlPath(input)) by {
        var r := PlusSeparated(ToUrlPath(input));
        forall i | 0 <= i < |r| ensures r[i] != ',' {}
      }
      assert parts[0] != "";
      JoinNonEmpty(parts);
    }
  }

  lemma JoinNonEmpty(pieces: seq<string>)
    requires pieces != [] && pieces[0] != ""
    ensures Join(pieces) != ""
  {
    assert |Join(pieces)| >= |pieces[0]|;
  }

  /** toUrlPath is idempotent. */
  lemma ToUrlPathIdempotent(input: string)
    ensures ToUrlPath(ToUrlPath(input)) == ToUrlPath(input)
  {
    var parts := Parts(input);
    ToUrlPathSpec(input);
    PartsShape(input);
    if parts == [] {
      assert Split("") == [""];
      TrimShape("");
      assert Parts("") == [];
    } else {
      TrimNonEmptyOfTrimmed(parts);
    }
  }

  /** Non-empty trimmed pieces pass through trimming and filtering unchanged. */
  lemma {:induction false} TrimNonEmptyOfTrimmed(pieces: seq<string>)
    requires forall i :: 0 <= i < |pieces| ==> pieces[i] != "" && IsTrimmed(pieces[i])
    ensures TrimNonEmpty(pieces) == pieces
  {
    if pieces != [] {
      var head, tail := pieces[0], pieces[1..];
      TrimOfTrimmed(head);
      forall i | 0 <= i < |tail|
        ensures tail[i] != "" && IsTrimmed(tail[i])
      {
        assert tail[i] == pieces[i + 1];
      }
      TrimNonEmptyOfTrimmed(tail);
      TrimNonEmptyCons(pieces);
      assert [head] + tail == pieces;
    }
  }

  // ---------------------------------------------------------------- resolution

  datatype ResolvedWallet = ResolvedWallet(address: string, ens: Option<string>)

  /**
   * The lookups resolveSingle makes. `forward(name)` is `getEnsAddress({ name: normalize(name) })`:
   * Ok(None) for a null answer, Err(message) when normalisation or the lookup throws.
   * `reverse(address)` is `getEnsName({ address })`, Err when it throws.
   */
  datatype Resolver = Resolver(
    forward: string -> Result<Option<string>, string>,
    reverse: string -> Result<Option<string>, string>,
    isAddress: string -> bool)

  /** The input as resolveSingle reads it: `input.trim().toLowerCase()`. */
  function Normalized(input: string): string {
    ToLower(Trim(input))
  }

  /** resolveSingle: an error is the thrown message. */
  function ResolveSingle(r: Resolver, input: string): Result<ResolvedWallet, string> {
    var trimmed := Normalized(input);
    if IsENS(trimmed) then
      match r.forward(trimmed)
      case Err(message) => Err(message)
      case Ok(address) =>
        if address.None? || address.value == "" then Err("Could not resolve ENS name: " + trimmed)
        else Ok(ResolvedWallet(ToLower(address.value), Some(trimmed)))
    else if r.isAddress(trimmed) then
      var ens := match r.reverse(trimmed) case Ok(name) => name case Err(_) => None;
      Ok(ResolvedWallet(trimmed, ens))
    else
      Err("Invalid address or ENS name: " + trimmed)
  }

  /**
   * The decision tree of resolveSingle: a ".eth" name resolves through the forward lookup or
   * fails with "Could not resolve ENS name"; otherwise a valid address is returned with its
   * reverse name, a failed reverse lookup giving no name rather than an error; anything else
   * fails with "Invalid address or ENS name". Every address returned is lower-case.
   */
  lemma ResolveSingleSpec(r: Resolver, input: string)
    ensures var trimmed := Normalized(input);
      var result := ResolveSingle(r, input);
      && (result.Ok? ==> IsLower(result.value.address))
      && (IsENS(trimmed) && r.forward(trimmed).Ok? ==>
            match r.forward(trimmed).value
            case Some(a) =>
              if a != "" then result == Ok(ResolvedWallet(ToLower(a), Some(trimmed)))
              else result == Err("Could not resolve ENS name: " + trimmed)
            case None => result == Err("Could not resolve ENS name: " + trimmed))
      && (IsENS(trimmed) && r.forward(trimmed).Err? ==> result == Err(r.forward(trimmed).error))
      && (!IsENS(trimmed) && r.isAddress(trimmed) ==>
            && result.Ok? && result.value.address == trimmed
            && result.value.ens == (if r.reverse(trimmed).Ok? then r.reverse(trimmed).value else None))
      && (!IsENS(trimmed) && !r.isAddress(trimmed) ==> result == Err("Invalid address or ENS name: " + trimmed))
  {
    var trimmed := Normalized(input);
    ToLowerIsLower(Trim(input));
    var result := ResolveSingle(r, input);
    if IsENS(trimmed) && r.forward(trimmed).Ok? && r.forward(trimmed).value.Some? {
      ToLowerIsLower(r.forward(trimmed).value.value);
    }
  }

  /** The ".eth" test comes first: for a name, isAddress is never consulted. */
  lemma ENSBeforeAddress(r: Resolver, input: string, isAddress: string -> bool)
    requires IsENS(Normalized(input))
    ensures ResolveSingle(r, input) == ResolveSingle(r.(isAddress := isAddress), input)
  {
  }

  /** resolveSingle ignores surrounding white space and the case of ASCII letters. */
  lemma ResolveSingleNormalizes(r: Resolver, a: string, b: string)
    requires Normalized(a) == Normalized(b)
    ensures ResolveSingle(r, a) == ResolveSingle(r, b)
  {
  }

  /** `Promise.all(parts.map(resolve))`, the first failure in part order winning. */
  function ResolveAll(resolve: string -> Result<ResolvedWallet, string>, parts: seq<string>)
    : Result<seq<ResolvedWallet>, string>
  {
    if parts == [] then Ok([])
    else
      match resolve(parts[0])
      case Err(message) => Err(message)
      case Ok(w) =>
        match ResolveAll(resolve, parts[1..])
        case Err(message) => Err(message)
        case Ok(ws) => Ok([w] + ws)
  }

  datatype Resolution = Resolution(wallets: seq<ResolvedWallet>, primary: Option<ResolvedWallet>)

  /** resolveInput; `primary` is `wallets[0]`, which is undefined (None) when there are no parts. */
  function ResolveInput(r: Resolver, input: string): Result<Resolution, string> {
    match ResolveAll((part: string) => ResolveSingle(r, part), Parts(input))
    case Err(message) => Err(message)
    case Ok(wallets) => Ok(Resolution(wallets, if wallets == [] then None else Some(wallets[0])))
  }

  /** The index of the first part that fails to resolve, or |parts|. */
  function FirstUnresolved(resolve: string -> Result<ResolvedWallet, string>, parts: seq<string>): (k: nat)
    ensures k <= |parts|
    ensures k < |parts| ==> resolve(parts[k]).Err?
    ensures forall i :: 0 <= i < k ==> resolve(parts[i]).Ok?
  {
    if parts == [] || resolve(parts[0]).Err? then 0 else 1 + FirstUnresolved(resolve, parts[1..])
  }

  /**
   * Resolving all parts succeeds exactly when every part resolves, with one wallet per part in
   * order; otherwise it fails with the message of the first part that fails.
   */
  lemma {:induction false} ResolveAllSpec(resolve: string -> Result<ResolvedWallet, string>, parts: seq<string>)
    ensures var k := FirstUnresolved(resolve, parts);
      && (ResolveAll(resolve, parts).Ok? <==> k == |parts|)
      && (k < |parts| ==> ResolveAll(resolve, parts) == Err(resolve(parts[k]).error))
      && (k == |parts| ==>
            && |ResolveAll(resolve, parts).value| == |parts|
            && forall i :: 0 <= i < |parts| ==> resolve(parts[i]) == Ok(ResolveAll(resolve, parts).value[i]))
  {
    if parts != [] && resolve(parts[0]).Ok? {
      ResolveAllSpec(resolve, parts[1..]);
      var k := FirstUnresolved(resolve, parts);
      assert forall i :: 1 <= i < |parts| ==> parts[1..][i - 1] == parts[i];
      if k == |parts| {
        var ws := ResolveAll(resolve, parts[1..]).value;
        assert ResolveAll(resolve, parts).value == [resolve(parts[0]).value] + ws;
      }
    }
  }

  /**
   * resolveInput yields one wallet per part of the input, in order, with the first as primary,
   * and fails as soon as any part fails, with that part's message.
   */
  lemma ResolveInputSpec(r: Resolver, input: string)
    ensures var parts := Parts(input);
      var resolve := (part: string) => ResolveSingle(r, part);
      var k := FirstUnresolved(resolve, parts);
      var result := ResolveInput(r, input);
      && (result.Ok? <==> k == |parts|)
      && (k < |parts| ==> result == Err(ResolveSingle(r, parts[k]).error))
      && (result.Ok? ==>
            && |result.value.wallets| == |parts|
            && (forall i :: 0 <= i < |parts| ==> ResolveSingle(r, parts[i]) == Ok(result.value.wallets[i]))
            && (result.value.primary.Some? <==> parts != [])
            && (parts != [] ==> result.value.primary == Some(result.value.wallets[0])))
  {
    ResolveAllSpec((part: string) => ResolveSingle(r, part), Parts(input));
  }
}
