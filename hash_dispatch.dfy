/** Resolving a hash through the daemon and dispatching on the
    `ResponseType` the daemon reports (hashpage.go): the hash page handler,
    `parseTransaction`, `parseTransactions` and `findOutput`.

    The daemon (`apiGetHash`, `apiGetBlockData`), the JSON decoder and the
    HTML templates are foreign code; the model takes them as oracles, the
    function-valued fields of `Env`. */
module HashDispatch {
  import opened SiaTypes
  import opened OutputSearch

  /** A raw JSON reply of the daemon. */
  type Body = string

  datatype BlockResponse = BlockResponse(block: Block, height: BlockHeight)
  datatype TransactionResponse = TransactionResponse(tx: Transaction, parentID: Hash, txNum: nat)
  datatype OutputResponse = OutputResponse(outputTx: Hash, inputTx: Hash)

  /** What the block template is filled with. */
  datatype BlockRoot = BlockRoot(block: Block, height: BlockHeight, target: Hash, size: nat, hashes: nat)

  datatype Env = Env(
    // apiGetHash: the daemon's lookup of an arbitrary hash
    getHash: seq<byte> -> Result<Body>,
    // apiGetBlockData(start, finish)
    getBlockData: (BlockHeight, BlockHeight) -> Result<seq<BlockSummary>>,
    // json.Unmarshal into responseData, then into each typed response
    decodeType: Body -> Result<string>,
    decodeBlock: Body -> Result<BlockResponse>,
    decodeTransaction: Body -> Result<TransactionResponse>,
    decodeOutput: Body -> Result<OutputResponse>,
    // parseTemplate with the block and the transaction template
    renderBlock: BlockRoot -> Result<string>,
    renderTransaction: TransactionResponse -> Result<string>,
    // expectedHashes(target)
    expectedHashes: Hash -> nat)

  // ---------------------------------------------------------------------
  // The ResponseType classification
  // ---------------------------------------------------------------------

  datatype Kind = BlockKind | TransactionKind | OutputKind | AddressKind | FileContractKind | OtherKind

  /** The `ResponseType` string the daemon uses for each kind. */
  function Name(k: Kind): string
    requires !k.OtherKind?
  {
    match k
    case BlockKind => "Block"
    case TransactionKind => "Transaction"
    case OutputKind => "Output"
    case AddressKind => "Address"
    case FileContractKind => "FileContract"
  }

  const KnownTypes: set<string> := {"Block", "Transaction", "Output", "Address", "FileContract"}

  /** The switch on `ResponseType`: exact, case-sensitive string matches. */
  function Classify(t: string): (k: Kind)
    ensures k.OtherKind? <==> t !in KnownTypes
    ensures !k.OtherKind? ==> Name(k) == t
  {
    if t == "Block" then BlockKind
    else if t == "Transaction" then TransactionKind
    else if t == "Output" then OutputKind
    else if t == "Address" then AddressKind
    else if t == "FileContract" then FileContractKind
    else OtherKind
  }

  /** Classification and naming are inverse to each other. */
  lemma ClassifyName(k: Kind)
    requires !k.OtherKind?
    ensures Classify(Name(k)) == k
  {
  }

  // ---------------------------------------------------------------------
  // hashPageHandler
  // ---------------------------------------------------------------------

  /** What the hash page handler does with a request: hand the daemon's
      reply to one of the page renderers, or answer with an HTTP error. */
  datatype Page =
    | BlockPage(body: Body)
    | TransactionPage(body: Body)
    | OutputPage(body: Body, id: seq<byte>)
    | AddressPage(body: Body, address: seq<byte>)
    | ContractPage(body: Body, id: seq<byte>)
    | HttpError(message: string, status: nat)

  /** The prefix of the error that echoes an unrecognised daemon reply. */
  const UnknownReplyPrefix := "siad returned: "

  /** `hashPageHandler` after the hex parameter has been decoded to `hash`. */
  function HashPage(env: Env, hash: seq<byte>): (page: Page)
    ensures page.HttpError? ==> page.status == 500
    ensures !page.HttpError? ==>
              && env.getHash(hash).Ok? && page.body == env.getHash(hash).value
              && env.decodeType(page.body).Ok? && env.decodeType(page.body).value in KnownTypes
  {
    match env.getHash(hash)
    case Err(e) => HttpError(e.message, 500)
    case Ok(body) =>
      match env.decodeType(body)
      case Err(e) => HttpError(e.message, 500)
      case Ok(t) =>
        match Classify(t)
        case BlockKind => BlockPage(body)
        case TransactionKind => TransactionPage(body)
        case OutputKind => OutputPage(body, hash)
        case AddressKind => AddressPage(body, hash)
        case FileContractKind => ContractPage(body, hash)
        case OtherKind => HttpError(UnknownReplyPrefix + body, 500)
  }

  /** Each of the five known `ResponseType` values goes to its own page,
      carrying the daemon's reply unchanged (and the requested hash, for the
      pages that show it); any other value is a 500 error echoing the reply;
      a failed lookup or an undecodable reply is a 500 error. */
  lemma HashPageDispatch(env: Env, hash: seq<byte>)
    ensures env.getHash(hash).Err? ==> HashPage(env, hash) == HttpError(env.getHash(hash).error.message, 500)
    ensures env.getHash(hash).Ok? && env.decodeType(env.getHash(hash).value).Err? ==>
              HashPage(env, hash) == HttpError(env.decodeType(env.getHash(hash).value).error.message, 500)
    ensures env.getHash(hash).Ok? && env.decodeType(env.getHash(hash).value).Ok? ==>
              var body := env.getHash(hash).value;
              var t := env.decodeType(body).value;
              && (t == "Block" <==> HashPage(env, hash) == BlockPage(body))
              && (t == "Transaction" <==> HashPage(env, hash) == TransactionPage(body))
              && (t == "Output" <==> HashPage(env, hash) == OutputPage(body, hash))
              && (t == "Address" <==> HashPage(env, hash) == AddressPage(body, hash))
              && (t == "FileContract" <==> HashPage(env, hash) == ContractPage(body, hash))
              && (t !in KnownTypes <==> HashPage(env, hash) == HttpError(UnknownReplyPrefix + body, 500))
  {
  }

  // ---------------------------------------------------------------------
  // parseTransaction / parseTransactions
  // ---------------------------------------------------------------------

  /** The block reply `hash` resolves to, if the daemon names a block for
      it and the reply decodes. */
  ghost predicate IsBlockReply(env: Env, hash: Hash)
  {
    && hash != ZeroHash
    && env.getHash(hash).Ok?
    && env.decodeType(env.getHash(hash).value) == Ok("Block")
    && env.decodeBlock(env.getHash(hash).value).Ok?
  }

  /** If `hash` names a block, the daemon answers the one-block summary
      query `[h, h+1)` for its height with at least one summary, unless the
      query fails. `parseTransaction` reads the first summary of that reply
      without checking, so this is what its callers rely on. */
  ghost predicate SummaryAvailable(env: Env, hash: Hash)
  {
    IsBlockReply(env, hash) ==>
      var h := env.decodeBlock(env.getHash(hash).value).value.height;
      env.getBlockData(h, NextHeight(h)).Ok? ==> |env.getBlockData(h, NextHeight(h)).value| > 0
  }

  ghost predicate SummariesAvailable(env: Env, hashes: seq<Hash>)
  {
    forall i :: 0 <= i < |hashes| ==> SummaryAvailable(env, hashes[i])
  }

  /** The block template's input: the block body merged with the first
      summary of its height. */
  function MergeSummary(env: Env, b: BlockResponse, summary: BlockSummary): (root: BlockRoot)
    ensures root.block == b.block && root.height == b.height
    ensures root.target == summary.target && root.size == summary.size
    ensures root.hashes == env.expectedHashes(summary.target)
  {
    BlockRoot(b.block, b.height, summary.target, summary.size, env.expectedHashes(summary.target))
  }

  /** `parseTransaction`: the zero hash yields an empty page without a
      daemon lookup; a Block is rendered with its height's summary; a
      Transaction is rendered as is; any other kind yields an empty page;
      every failure on the way is returned. The empty string stands for
      Go's nil slice. */
  function ParseTransaction(env: Env, hash: Hash): (r: Result<string>)
    requires SummaryAvailable(env, hash)
    ensures hash == ZeroHash ==> r == Ok("")
    ensures hash != ZeroHash && env.getHash(hash).Err? ==> r == Err(env.getHash(hash).error)
    ensures hash != ZeroHash && env.getHash(hash).Ok? && env.decodeType(env.getHash(hash).value).Err? ==>
              r == Err(env.decodeType(env.getHash(hash).value).error)
    ensures hash != ZeroHash && env.getHash(hash).Ok? && env.decodeType(env.getHash(hash).value).Ok? &&
            Classify(env.decodeType(env.getHash(hash).value).value) !in {BlockKind, TransactionKind} ==>
              r == Ok("")
    ensures hash != ZeroHash && env.getHash(hash).Ok? && env.decodeType(env.getHash(hash).value) == Ok("Block") ==>
              r == match env.decodeBlock(env.getHash(hash).value)
                   case Err(e) => Err(e)
                   case Ok(b) =>
                     match env.getBlockData(b.height, NextHeight(b.height))
                     case Err(e) => Err(e)
                     case Ok(summaries) => env.renderBlock(MergeSummary(env, b, summaries[0]))
    ensures hash != ZeroHash && env.getHash(hash).Ok? && env.decodeType(env.getHash(hash).value) == Ok("Transaction") ==>
              r == match env.decodeTransaction(env.getHash(hash).value)
                   case Err(e) => Err(e)
                   case Ok(tr) => env.renderTransaction(tr)
    ensures r.Ok? && r.value != "" ==>
              && env.getHash(hash).Ok?
              && env.decodeType(env.getHash(hash).value).Ok?
              && Classify(env.decodeType(env.getHash(hash).value).value) in {BlockKind, TransactionKind}
  {
    if hash == ZeroHash then Ok("")
    else
      match env.getHash(hash)
      case Err(e) => Err(e)
      case Ok(body) =>
        match env.decodeType(body)
        case Err(e) => Err(e)
        case Ok(t) =>
          match Classify(t)
          case BlockKind =>
            (match env.decodeBlock(body)
             case Err(e) => Err(e)
             case Ok(b) =>
               match env.getBlockData(b.height, NextHeight(b.height))
               case Err(e) => Err(e)
               case Ok(summaries) => env.renderBlock(MergeSummary(env, b, summaries[0])))
          case TransactionKind =>
            (match env.decodeTransaction(body)
             case Err(e) => Err(e)
             case Ok(tr) => env.renderTransaction(tr))
          case _ => Ok("")
  }

  /** A `Transaction` reply is rendered with the transaction template and
      never reaches the block path. */
  lemma ParseTransactionOfTransaction(env: Env, hash: Hash)
    requires SummaryAvailable(env, hash)
    requires hash != ZeroHash && env.getHash(hash).Ok?
    requires env.decodeType(env.getHash(hash).value) == Ok("Transaction")
    requires env.decodeTransaction(env.getHash(hash).value).Ok?
    ensures ParseTransaction(env, hash) == env.renderTransaction(env.decodeTransaction(env.getHash(hash).value).value)
  {
  }

  /** A Block reply is rendered with the block template, filled with the
      block and height of the reply and with the target, size and expected
      hash count of the first summary of that very height's `[h, h+1)`
      query. */
  lemma ParseTransactionOfBlock(env: Env, hash: Hash)
    requires SummaryAvailable(env, hash) && IsBlockReply(env, hash)
    requires var b := env.decodeBlock(env.getHash(hash).value).value;
             env.getBlockData(b.height, NextHeight(b.height)).Ok?
    ensures var b := env.decodeBlock(env.getHash(hash).value).value;
            var first := env.getBlockData(b.height, NextHeight(b.height)).value[0];
            exists root: BlockRoot ::
              && ParseTransaction(env, hash) == env.renderBlock(root)
              && root.block == b.block && root.height == b.height
              && root.target == first.target && root.size == first.size
              && root.hashes == env.expectedHashes(first.target)
  {
    var b := env.decodeBlock(env.getHash(hash).value).value;
    var first := env.getBlockData(b.height, NextHeight(b.height)).value[0];
    var root := MergeSummary(env, b, first);
    assert ParseTransaction(env, hash) == env.renderBlock(root);
  }

  // ----- parseTransactions -----

  /** The hashes a first-error loop over `parse` reaches satisfy `avail`:
      the first one, and each later one only while every hash before it
      has parsed. Hashes after the first failure are never looked at. */
  ghost predicate ReachedBy(avail: Hash -> bool, parse: Hash -> Result<string>, hashes: seq<Hash>)
  {
    hashes != [] ==>
      && avail(hashes[0])
      && (parse(hashes[0]).Ok? ==> ReachedBy(avail, parse, hashes[1..]))
  }

  /** The pages of `hashes` under `parse`, concatenated in order, or the
      error of the first hash that fails. */
  ghost function Concat(parse: Hash -> Result<string>, hashes: seq<Hash>): Result<string>
  {
    if hashes == [] then Ok("")
    else
      match parse(hashes[0])
      case Err(e) => Err(e)
      case Ok(page) =>
        match Concat(parse, hashes[1..])
        case Err(e) => Err(e)
        case Ok(rest) => Ok(page + rest)
  }

  lemma {:induction false} ConcatAppend(parse: Hash -> Result<string>, a: seq<Hash>, b: seq<Hash>)
    ensures Concat(parse, a + b) ==
              if Concat(parse, a).Err? then Concat(parse, a)
              else if Concat(parse, b).Err? then Concat(parse, b)
              else Ok(Concat(parse, a).value + Concat(parse, b).value)
  {
    if a == [] {
      assert a + b == b;
      if Concat(parse, b).Ok? {
        assert "" + Concat(parse, b).value == Concat(parse, b).value;
      }
    } else {
      assert (a + b)[0] == a[0] && (a + b)[1..] == a[1..] + b;
      ConcatAppend(parse, a[1..], b);
      if parse(a[0]).Ok? && Concat(parse, a[1..]).Ok? && Concat(parse, b).Ok? {
        var page, x, y := parse(a[0]).value, Concat(parse, a[1..]).value, Concat(parse, b).value;
        assert page + (x + y) == (page + x) + y;
      }
    }
  }

  lemma {:induction false} ReachedByAppend(avail: Hash -> bool, parse: Hash -> Result<string>, a: seq<Hash>, b: seq<Hash>)
    requires ReachedBy(avail, parse, a + b)
    ensures ReachedBy(avail, parse, a)
    ensures Concat(parse, a).Ok? ==> ReachedBy(avail, parse, b)
  {
    if a == [] {
      assert a + b == b;
    } else {
      assert (a + b)[0] == a[0] && (a + b)[1..] == a[1..] + b;
      if parse(a[0]).Ok? {
        ReachedByAppend(avail, parse, a[1..], b);
      }
    }
  }

  lemma {:induction false} ConcatOk(avail: Hash -> bool, parse: Hash -> Result<string>, hashes: seq<Hash>)
    requires ReachedBy(avail, parse, hashes)
    ensures Concat(parse, hashes).Ok? <==>
              && (forall i :: 0 <= i < |hashes| ==> avail(hashes[i]))
              && (forall i :: 0 <= i < |hashes| ==> parse(hashes[i]).Ok?)
  {
    if hashes != [] {
      var tail := hashes[1..];
      assert forall i :: 1 <= i < |hashes| ==> hashes[i] == tail[i - 1];
      if parse(hashes[0]).Ok? {
        ConcatOk(avail, parse, tail);
      }
    }
  }

  /** The hash at position `i` fails under `parse` with `err`, and every
      hash up to it was reached and every hash before it parsed. */
  ghost predicate FirstFailure(avail: Hash -> bool, parse: Hash -> Result<string>, hashes: seq<Hash>, i: int, err: Result<string>)
  {
    && 0 <= i < |hashes|
    && avail(hashes[i])
    && parse(hashes[i]) == err
    && forall j :: 0 <= j < i ==> avail(hashes[j]) && parse(hashes[j]).Ok?
  }

  lemma {:induction false} ConcatFirstError(avail: Hash -> bool, parse: Hash -> Result<string>, hashes: seq<Hash>)
    requires ReachedBy(avail, parse, hashes)
    requires Concat(parse, hashes).Err?
    ensures exists i :: FirstFailure(avail, parse, hashes, i, Concat(parse, hashes))
  {
    if parse(hashes[0]).Err? {
      assert FirstFailure(avail, parse, hashes, 0, Concat(parse, hashes));
    } else {
      var tail := hashes[1..];
      ConcatFirstError(avail, parse, tail);
      var k :| FirstFailure(avail, parse, tail, k, Concat(parse, tail));
      assert hashes[k + 1] == tail[k];
      forall j | 0 <= j < k + 1
        ensures avail(hashes[j]) && parse(hashes[j]).Ok?
      {
        if j > 0 {
          assert hashes[j] == tail[j - 1];
        }
      }
      assert FirstFailure(avail, parse, hashes, k + 1, Concat(parse, hashes));
    }
  }

  /** Which hashes `parseTransaction` may be called on. */
  ghost function AvailableOf(env: Env): Hash -> bool
  {
    (h: Hash) => SummaryAvailable(env, h)
  }

  /** `parseTransaction` as a function of the hash. The empty page given
      for a hash outside `SummaryAvailable` is never used: `ParseAll`
      requires every reached hash to satisfy it. */
  ghost function ParseOf(env: Env): Hash -> Result<string>
  {
    (h: Hash) => if SummaryAvailable(env, h) then ParseTransaction(env, h) else Ok("")
  }

  /** `SummaryAvailable` for each hash `parseTransactions` reaches. */
  ghost predicate Reached(env: Env, hashes: seq<Hash>)
  {
    ReachedBy(AvailableOf(env), ParseOf(env), hashes)
  }

  /** What `parseTransactions` computes: the pages of the hashes in order,
      concatenated, or the error of the first hash that fails to parse. */
  ghost function ParseAll(env: Env, hashes: seq<Hash>): Result<string>
    requires Reached(env, hashes)
  {
    Concat(ParseOf(env), hashes)
  }

  /** Every hash being parseable is enough for the loop's precondition. */
  lemma {:induction false} ReachedOfAvailable(env: Env, hashes: seq<Hash>)
    requires SummariesAvailable(env, hashes)
    ensures Reached(env, hashes)
  {
    if hashes != [] {
      assert SummaryAvailable(env, hashes[0]);
      ReachedOfAvailable(env, hashes[1..]);
    }
  }

  /** `parseTransactions`: append each parsed page in order; the first
      error aborts the loop. */
  method ParseTransactions(env: Env, hashes: seq<Hash>) returns (r: Result<string>)
    requires Reached(env, hashes)
    ensures r == ParseAll(env, hashes)
  {
    ghost var avail, parse := AvailableOf(env), ParseOf(env);
    var page := "";
    assert hashes[0..] == hashes;
    if Concat(parse, hashes).Ok? {
      assert page + Concat(parse, hashes).value == Concat(parse, hashes).value;
    }
    for i := 0 to |hashes|
      invariant ReachedBy(avail, parse, hashes[i..])
      invariant Concat(parse, hashes) ==
                  match Concat(parse, hashes[i..])
                  case Err(e) => Err(e)
                  case Ok(rest) => Ok(page + rest)
    {
      assert hashes[i..][0] == hashes[i] && hashes[i..][1..] == hashes[i + 1..];
      var parsed := ParseTransaction(env, hashes[i]);
      if parsed.Err? {
        return Err(parsed.error);
      }
      if Concat(parse, hashes[i + 1..]).Ok? {
        var rest := Concat(parse, hashes[i + 1..]).value;
        assert page + (parsed.value + rest) == (page + parsed.value) + rest;
      }
      page := page + parsed.value;
    }
    assert hashes[|hashes|..] == [];
    assert page + "" == page;
    return Ok(page);
  }

  /** A hash that fails to parse ends `parseTransactions` with its error,
      whatever follows it: the later hashes are not looked at. */
  lemma ParseAllStopsAtError(env: Env, h: Hash, rest: seq<Hash>)
    requires SummaryAvailable(env, h) && ParseTransaction(env, h).Err?
    ensures Reached(env, [h] + rest)
    ensures ParseAll(env, [h] + rest) == ParseTransaction(env, h)
  {
    assert ([h] + rest)[0] == h;
  }

  /** `parseTransactions` succeeds exactly when every hash is reached and
      parses. */
  lemma ParseAllOk(env: Env, hashes: seq<Hash>)
    requires Reached(env, hashes)
    ensures ParseAll(env, hashes).Ok? <==>
              && SummariesAvailable(env, hashes)
              && forall i :: 0 <= i < |hashes| ==> ParseTransaction(env, hashes[i]).Ok?
  {
    ConcatOk(AvailableOf(env), ParseOf(env), hashes);
  }

  /** The pages of `a + b` are the pages of `a` followed by the pages of
      `b`; an error in `a` wins, and `b` is reached only when `a` parses. */
  lemma ParseAllAppend(env: Env, a: seq<Hash>, b: seq<Hash>)
    requires Reached(env, a + b)
    ensures Reached(env, a)
    ensures ParseAll(env, a).Ok? ==> Reached(env, b)
    ensures ParseAll(env, a + b) ==
              if ParseAll(env, a).Err? then ParseAll(env, a)
              else if ParseAll(env, b).Err? then ParseAll(env, b)
              else Ok(ParseAll(env, a).value + ParseAll(env, b).value)
  {
    ReachedByAppend(AvailableOf(env), ParseOf(env), a, b);
    ConcatAppend(ParseOf(env), a, b);
  }

  /** On one hash, `parseTransactions` is `parseTransaction`. */
  lemma ParseAllSingle(env: Env, h: Hash)
    requires SummaryAvailable(env, h)
    ensures Reached(env, [h])
    ensures ParseAll(env, [h]) == ParseTransaction(env, h)
  {
    assert [h][1..] == [];
    assert Concat(ParseOf(env), [h][1..]) == Ok("");
    assert ParseOf(env)([h][0]) == ParseTransaction(env, h);
    if ParseTransaction(env, h).Ok? {
      assert ParseTransaction(env, h).value + "" == ParseTransaction(env, h).value;
    }
  }

  /** When `parseTransactions` fails, it fails with the error of the first
      hash that does not parse, and every hash before it was reached and
      parsed. */
  lemma ParseAllFirstError(env: Env, hashes: seq<Hash>)
    requires Reached(env, hashes)
    requires ParseAll(env, hashes).Err?
    ensures exists i :: 0 <= i < |hashes|
              && SummaryAvailable(env, hashes[i])
              && ParseTransaction(env, hashes[i]) == ParseAll(env, hashes)
              && forall j :: 0 <= j < i ==> SummaryAvailable(env, hashes[j]) && ParseTransaction(env, hashes[j]).Ok?
  {
    ConcatFirstError(AvailableOf(env), ParseOf(env), hashes);
    var i :| FirstFailure(AvailableOf(env), ParseOf(env), hashes, i, ParseAll(env, hashes));
    assert SummaryAvailable(env, hashes[i]);
  }

  // ---------------------------------------------------------------------
  // findOutput
  // ---------------------------------------------------------------------

  /** What `findOutput` computes: look the output up, look up the entity
      that created it, and search that entity if it is a block or a
      transaction. Any other kind of creator yields the zero output and no
      error. */
  function ResolveOutput(s: IdScheme, env: Env, oID: Hash): Result<SiacoinOutput>
  {
    match env.getHash(oID)
    case Err(e) => Err(e)
    case Ok(outputBody) =>
      match env.decodeOutput(outputBody)
      case Err(e) => Err(e)
      case Ok(or) =>
        match env.getHash(or.outputTx)
        case Err(e) => Err(e)
        case Ok(body) =>
          match env.decodeType(body)
          case Err(e) => Err(e)
          case Ok(t) =>
            match Classify(t)
            case BlockKind =>
              (match env.decodeBlock(body)
               case Err(e) => Err(e)
               case Ok(b) => FindInBlock(s, oID, b.block))
            case TransactionKind =>
              (match env.decodeTransaction(body)
               case Err(e) => Err(e)
               case Ok(tr) => FindInTransaction(s, oID, tr.tx))
            case _ => Ok(ZeroOutput)
  }

  /** `findOutput`. */
  method FindOutput(s: IdScheme, env: Env, oID: Hash) returns (r: Result<SiacoinOutput>)
    ensures r == ResolveOutput(s, env, oID)
  {
    var itemJSON := env.getHash(oID);
    if itemJSON.Err? { return Err(itemJSON.error); }
    var or := env.decodeOutput(itemJSON.value);
    if or.Err? { return Err(or.error); }
    itemJSON := env.getHash(or.value.outputTx);
    if itemJSON.Err? { return Err(itemJSON.error); }
    var rd := env.decodeType(itemJSON.value);
    if rd.Err? { return Err(rd.error); }
    match Classify(rd.value)
    case BlockKind =>
      var b := env.decodeBlock(itemJSON.value);
      if b.Err? { return Err(b.error); }
      r := FindOutputBlock(s, oID, b.value.block);
    case TransactionKind =>
      var tr := env.decodeTransaction(itemJSON.value);
      if tr.Err? { return Err(tr.error); }
      r := FindOutputTransaction(s, oID, tr.value.tx);
    case _ =>
      r := Ok(ZeroOutput);
  }

  /** The creator the daemon names for `oID`, with its kind, when every
      lookup and decode on the way succeeds. */
  ghost predicate CreatorIs(env: Env, oID: Hash, body: Body, k: Kind)
  {
    && env.getHash(oID).Ok?
    && env.decodeOutput(env.getHash(oID).value).Ok?
    && env.getHash(env.decodeOutput(env.getHash(oID).value).value.outputTx) == Ok(body)
    && env.decodeType(body).Ok?
    && Classify(env.decodeType(body).value) == k
  }

  /** What a successful `findOutput` returns: the zero output when the
      creator is neither a block nor a transaction; otherwise the output at
      the first position, in search order, whose derived ID is `oID`. */
  lemma ResolveOutputFound(s: IdScheme, env: Env, oID: Hash, o: SiacoinOutput)
    requires ResolveOutput(s, env, oID) == Ok(o)
    ensures exists body, k :: CreatorIs(env, oID, body, k) &&
              match k
              case BlockKind =>
                env.decodeBlock(body).Ok?
                && exists i: nat :: LeastPayoutMatch(s, oID, env.decodeBlock(body).value.block, i)
                                    && o == env.decodeBlock(body).value.block.minerPayouts[i]
              case TransactionKind =>
                env.decodeTransaction(body).Ok?
                && exists loc :: LeastMatch(s, oID, env.decodeTransaction(body).value.tx, loc)
                                 && OutputAt(env.decodeTransaction(body).value.tx, loc) == Some(o)
              case _ => o == ZeroOutput
  {
    var or := env.decodeOutput(env.getHash(oID).value).value;
    var body := env.getHash(or.outputTx).value;
    var k := Classify(env.decodeType(body).value);
    assert CreatorIs(env, oID, body, k);
    match k
    case BlockKind =>
      FindInBlockCorrect(s, oID, env.decodeBlock(body).value.block);
    case TransactionKind =>
      FindInTransactionIsLeastMatch(s, oID, env.decodeTransaction(body).value.tx, o);
    case _ =>
  }

  /** Every lookup or decode that fails on the way makes `findOutput` fail
      with that error; a block creator is searched with `findOutputBlock`
      and a transaction creator with `findOutputTransaction`. */
  lemma ResolveOutputDispatch(s: IdScheme, env: Env, oID: Hash)
    ensures env.getHash(oID).Err? ==> ResolveOutput(s, env, oID) == Err(env.getHash(oID).error)
    ensures env.getHash(oID).Ok? && env.decodeOutput(env.getHash(oID).value).Err? ==>
              ResolveOutput(s, env, oID) == Err(env.decodeOutput(env.getHash(oID).value).error)
    ensures env.getHash(oID).Ok? && env.decodeOutput(env.getHash(oID).value).Ok? ==>
              var creator := env.getHash(env.decodeOutput(env.getHash(oID).value).value.outputTx);
              && (creator.Err? ==> ResolveOutput(s, env, oID) == Err(creator.error))
              && (creator.Ok? && env.decodeType(creator.value).Err? ==>
                    ResolveOutput(s, env, oID) == Err(env.decodeType(creator.value).error))
    ensures forall body :: CreatorIs(env, oID, body, BlockKind) ==>
              ResolveOutput(s, env, oID) == match env.decodeBlock(body)
                                            case Err(e) => Err(e)
                                            case Ok(b) => FindInBlock(s, oID, b.block)
    ensures forall body :: CreatorIs(env, oID, body, TransactionKind) ==>
              ResolveOutput(s, env, oID) == match env.decodeTransaction(body)
                                            case Err(e) => Err(e)
                                            case Ok(tr) => FindInTransaction(s, oID, tr.tx)
  {
  }

  /** The converse of `ResolveOutputFound`: when the creator is a block or a
      transaction that decodes, and some position derives `oID`, `findOutput`
      returns the output at the least such position; when no position
      derives it, the search's not-found error is returned. */
  lemma ResolveOutputFindsLeast(s: IdScheme, env: Env, oID: Hash, body: Body)
    ensures CreatorIs(env, oID, body, BlockKind) && env.decodeBlock(body).Ok? ==>
              var b := env.decodeBlock(body).value.block;
              && (forall i: nat :: LeastPayoutMatch(s, oID, b, i) ==> ResolveOutput(s, env, oID) == Ok(b.minerPayouts[i]))
              && ((forall i: nat :: !LeastPayoutMatch(s, oID, b, i)) ==> ResolveOutput(s, env, oID) == Err(NotFoundInBlock))
    ensures CreatorIs(env, oID, body, TransactionKind) && env.decodeTransaction(body).Ok? ==>
              var tx := env.decodeTransaction(body).value.tx;
              && (forall loc, o :: LeastMatch(s, oID, tx, loc) && OutputAt(tx, loc) == Some(o) ==>
                    ResolveOutput(s, env, oID) == Ok(o))
              && ((forall loc :: ValidLocation(tx, loc) ==> DerivedID(s, tx, loc) != Some(oID)) ==>
                    ResolveOutput(s, env, oID) == Err(NotFoundInTransaction))
  {
    ResolveOutputDispatch(s, env, oID);
    if CreatorIs(env, oID, body, BlockKind) && env.decodeBlock(body).Ok? {
      FindInBlockCorrect(s, oID, env.decodeBlock(body).value.block);
    }
    if CreatorIs(env, oID, body, TransactionKind) && env.decodeTransaction(body).Ok? {
      var tx := env.decodeTransaction(body).value.tx;
      FindInTransactionNotFound(s, oID, tx);
      forall loc, o | LeastMatch(s, oID, tx, loc) && OutputAt(tx, loc) == Some(o)
        ensures ResolveOutput(s, env, oID) == Ok(o)
      {
        FindInTransactionIsLeastMatch(s, oID, tx, o);
      }
    }
  }

  /** A creator of any kind other than Block or Transaction is not an error:
      `findOutput` yields the zero output. */
  lemma ResolveOutputOtherCreator(s: IdScheme, env: Env, oID: Hash, body: Body, k: Kind)
    requires CreatorIs(env, oID, body, k) && k !in {BlockKind, TransactionKind}
    ensures ResolveOutput(s, env, oID) == Ok(ZeroOutput)
  {
  }
}
