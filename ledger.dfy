/**
 * The hash-chained ledger of src/blockchain/blockchain.ts.
 *
 * A `Block` seals a batch of transactions under a content hash found by proof of work;
 * a `Blockchain` owns the ordered blocks, the mining difficulty and the buffer of
 * transactions waiting for the next block. SHA-256 is a foreign call: every block
 * carries the `Digest` it hashes with, and nothing is assumed about it except where a
 * lemma says so (`Separates`). The clock (`new Date().toISOString()`) is a
 * parameter `now`.
 */
module Ledger {
  import opened Wrappers

  datatype Direction = Send | Receive

  /** One ledger entry; `category` and `date` are optional fields. */
  datatype Transaction = Transaction(
    id: string,
    kind: Direction,
    amount: real,
    description: string,
    timestamp: string,
    category: Option<string>,
    date: Option<string>)

  /**
   * The content hash of a block: SHA-256 over the concatenation of index, previous
   * hash, timestamp, serialised transactions and nonce, in that order.
   */
  type Digest = (int, string, string, seq<Transaction>, nat) -> string

  /** The id reserved for the genesis transaction and hidden from every listing. */
  const GenesisId: string := "genesis"

  /** The difficulty every ledger is created with. */
  const DefaultDifficulty: nat := 2

  /** The transaction sealed into the genesis block. */
  function GenesisTransaction(now: string): Transaction
  {
    Transaction(GenesisId, Receive, 0.0, "Genesis Block", now, None, None)
  }

  /** The fields of a block at one moment, as a value. */
  datatype BlockData = BlockData(
    index: int,
    timestamp: string,
    transactions: seq<Transaction>,
    previousHash: string,
    nonce: nat,
    hash: string)

  /** The hash a block with these fields should carry. */
  function HashOf(sha256: Digest, b: BlockData): string
  {
    sha256(b.index, b.previousHash, b.timestamp, b.transactions, b.nonce)
  }

  /** `"0".repeat(d)`. */
  function Zeros(d: nat): (z: string)
    ensures |z| == d
    ensures forall i :: 0 <= i < d ==> z[i] == '0'
  {
    if d == 0 then "" else "0" + Zeros(d - 1)
  }

  /** `hash.startsWith("0".repeat(d))`: the proof-of-work target. */
  predicate MeetsDifficulty(hash: string, d: nat)
  {
    Zeros(d) <= hash
  }

  /** The target means: at least `d` characters, the first `d` of them `'0'`. */
  lemma MeetsDifficultyIff(hash: string, d: nat)
    ensures MeetsDifficulty(hash, d) <==> |hash| >= d && forall i :: 0 <= i < d ==> hash[i] == '0'
  {
    if |hash| >= d && forall i :: 0 <= i < d ==> hash[i] == '0' {
      assert hash[..d] == Zeros(d);
    }
  }

  /**
   * What `isChainValid` checks: every block after the first carries the hash of its own
   * fields and names its predecessor's hash. Block 0 is the trusted root and is not checked.
   */
  predicate ChainValid(sha256: Digest, blocks: seq<BlockData>)
  {
    forall i :: 1 <= i < |blocks| ==>
      blocks[i].hash == HashOf(sha256, blocks[i]) && blocks[i].previousHash == blocks[i - 1].hash
  }

  /** A block correctly sealed onto the tip of a valid chain keeps it valid. */
  lemma ChainValidAppend(sha256: Digest, blocks: seq<BlockData>, b: BlockData)
    requires ChainValid(sha256, blocks)
    requires |blocks| > 0 && b.previousHash == blocks[|blocks| - 1].hash
    requires b.hash == HashOf(sha256, b)
    ensures ChainValid(sha256, blocks + [b])
  {
    var c := blocks + [b];
    forall i | 1 <= i < |c|
      ensures c[i].hash == HashOf(sha256, c[i]) && c[i].previousHash == c[i - 1].hash
    {
      if i < |blocks| {
        assert c[i] == blocks[i] && c[i - 1] == blocks[i - 1];
      }
    }
  }

  /** Pointing any block after the first at a hash other than its predecessor's is detected. */
  lemma PreviousHashTamperDetected(sha256: Digest, blocks: seq<BlockData>, i: nat, forged: string)
    requires 1 <= i < |blocks|
    requires forged != blocks[i - 1].hash
    ensures !ChainValid(sha256, blocks[i := blocks[i].(previousHash := forged)])
  {
    var c := blocks[i := blocks[i].(previousHash := forged)];
    assert c[i - 1] == blocks[i - 1];
    assert c[i].previousHash != c[i - 1].hash;
  }

  /**
   * `b` is what mining produces from these inputs: its fields are the inputs, its hash is
   * the hash of its fields and meets the difficulty, and no smaller nonce would have.
   */
  predicate IsSeal(sha256: Digest, difficulty: nat, b: BlockData,
                   index: int, now: string, txs: seq<Transaction>, previousHash: string)
  {
    && b.index == index && b.timestamp == now && b.transactions == txs && b.previousHash == previousHash
    && b.hash == HashOf(sha256, b)
    && MeetsDifficulty(b.hash, difficulty)
    && forall n: nat :: n < b.nonce ==> !MeetsDifficulty(HashOf(sha256, b.(nonce := n)), difficulty)
  }

  /** Mining is deterministic: the inputs fix the sealed block, nonce and hash included. */
  lemma SealIsUnique(sha256: Digest, difficulty: nat, b1: BlockData, b2: BlockData,
                     index: int, now: string, txs: seq<Transaction>, previousHash: string)
    requires IsSeal(sha256, difficulty, b1, index, now, txs, previousHash)
    requires IsSeal(sha256, difficulty, b2, index, now, txs, previousHash)
    ensures b1 == b2
  {
    if b1.nonce < b2.nonce {
      var earlier := b2.(nonce := b1.nonce);
      assert false;
    } else if b2.nonce < b1.nonce {
      var earlier := b1.(nonce := b2.nonce);
      assert false;
    }
  }

  /** The fields a block's hash covers: everything except the hash itself. */
  function Hashed(b: BlockData): (int, string, string, seq<Transaction>, nat)
  {
    (b.index, b.previousHash, b.timestamp, b.transactions, b.nonce)
  }

  /**
   * The digest tells these two blocks apart: if their hashed fields differ, so do
   * their hashes. No digest is one-to-one on all inputs (the amounts are reals), so
   * collision-freedom is only ever assumed for the pair at hand.
   */
  ghost predicate Separates(sha256: Digest, a: BlockData, b: BlockData)
  {
    Hashed(a) != Hashed(b) ==> HashOf(sha256, a) != HashOf(sha256, b)
  }

  /** For every pair of blocks some digest separates them, so the assumption can be met. */
  lemma SeparatesIsSatisfiable(a: BlockData, b: BlockData)
    ensures exists h: Digest :: Separates(h, a, b)
  {
    var h: Digest := (i, p, t, x, n) => if (i, p, t, x, n) == Hashed(a) then "a" else "b";
    assert HashOf(h, a) == "a";
    assert Hashed(a) != Hashed(b) ==> HashOf(h, b) == "b";
    assert Separates(h, a, b);
  }

  /**
   * If the digest separates a block after the first from its forgery, changing any of
   * its fields while leaving its stored hash as it was makes the chain invalid.
   */
  lemma ContentTamperDetected(sha256: Digest, blocks: seq<BlockData>, i: nat, forged: BlockData)
    requires ChainValid(sha256, blocks)
    requires 1 <= i < |blocks|
    requires Separates(sha256, blocks[i], forged)
    requires forged.hash == blocks[i].hash && forged != blocks[i]
    ensures !ChainValid(sha256, blocks[i := forged])
  {
    var c := blocks[i := forged];
    assert blocks[i].hash == HashOf(sha256, blocks[i]);
    assert c[i] == forged;
  }

  /** The genesis block is trusted: changing its fields but not its hash goes unnoticed. */
  lemma GenesisIsNotChecked(sha256: Digest, blocks: seq<BlockData>, forged: BlockData)
    requires ChainValid(sha256, blocks)
    requires |blocks| > 0 && forged.hash == blocks[0].hash
    ensures ChainValid(sha256, blocks[0 := forged])
  {
    var c := blocks[0 := forged];
    forall i | 1 <= i < |c|
      ensures c[i].hash == HashOf(sha256, c[i]) && c[i].previousHash == c[i - 1].hash
    {
      assert c[i] == blocks[i];
      assert c[i - 1].hash == blocks[i - 1].hash;
    }
  }

  /** `transactions.filter(t => t.id !== "genesis")`. */
  function NonGenesis(txs: seq<Transaction>): (r: seq<Transaction>)
    ensures |r| <= |txs|
    ensures forall t :: t in r <==> t in txs && t.id != GenesisId
    ensures |txs| == 1 && txs[0].id != GenesisId ==> r == txs
  {
    if txs == [] then []
    else if txs[0].id == GenesisId then NonGenesis(txs[1..])
    else [txs[0]] + NonGenesis(txs[1..])
  }

  /**
   * The filter works element by element: filtering a concatenation concatenates the
   * filtered parts. With the one-element case above, this fixes the order and the
   * number of copies of every kept transaction.
   */
  lemma {:induction false} NonGenesisAppend(a: seq<Transaction>, b: seq<Transaction>)
    ensures NonGenesis(a + b) == NonGenesis(a) + NonGenesis(b)
  {
    if a != [] {
      assert (a + b)[1..] == a[1..] + b;
      NonGenesisAppend(a[1..], b);
    } else {
      assert a + b == b;
    }
  }

  /** `chain.flatMap(block => block.transactions.filter(t => t.id !== "genesis"))`. */
  function AllTransactions(blocks: seq<BlockData>): (r: seq<Transaction>)
    ensures forall t :: t in r ==> t.id != GenesisId
  {
    if blocks == [] then []
    else NonGenesis(blocks[0].transactions) + AllTransactions(blocks[1..])
  }

  /** Sealing one more block adds exactly its non-genesis transactions, at the end. */
  lemma {:induction false} AllTransactionsAppend(blocks: seq<BlockData>, b: BlockData)
    ensures AllTransactions(blocks + [b]) == AllTransactions(blocks) + NonGenesis(b.transactions)
  {
    if blocks == [] {
      assert [b][1..] == [];
    } else {
      assert (blocks + [b])[1..] == blocks[1..] + [b];
      AllTransactionsAppend(blocks[1..], b);
    }
  }

  /** A transaction is listed iff some block holds it and its id is not the reserved one. */
  lemma {:induction false} AllTransactionsMembership(blocks: seq<BlockData>, t: Transaction)
    ensures t in AllTransactions(blocks) <==>
      t.id != GenesisId && exists i :: 0 <= i < |blocks| && t in blocks[i].transactions
  {
    if blocks != [] {
      AllTransactionsMembership(blocks[1..], t);
      if t.id != GenesisId && t in blocks[0].transactions {
        assert t in NonGenesis(blocks[0].transactions);
      }
      if exists i :: 1 <= i < |blocks| && t in blocks[i].transactions {
        var i :| 1 <= i < |blocks| && t in blocks[i].transactions;
        assert t in blocks[1..][i - 1].transactions;
      }
    }
  }

  class Block {
    var index: int
    var timestamp: string
    var transactions: seq<Transaction>
    var previousHash: string
    var nonce: nat
    var hash: string
    /** The hash function this block is sealed with. */
    const sha256: Digest

    /** The block's fields as a value. */
    function Data(): BlockData
      reads this
    {
      BlockData(index, timestamp, transactions, previousHash, nonce, hash)
    }

    /** `calculateHash()`: the digest of the current fields. */
    function CalculateHash(): (h: string)
      reads this
      ensures h == sha256(index, previousHash, timestamp, transactions, nonce)
    {
      HashOf(sha256, Data())
    }

    /** A new block with nonce 0, sealed once with the hash of its fields; `previousHash` defaults to "". */
    constructor (index: int, transactions: seq<Transaction>, now: string, sha256: Digest, previousHash: string := "")
      ensures this.index == index && this.transactions == transactions && this.previousHash == previousHash
      ensures timestamp == now && this.sha256 == sha256
      ensures nonce == 0 && hash == CalculateHash()
    {
      this.index := index;
      this.timestamp := now;
      this.transactions := transactions;
      this.previousHash := previousHash;
      this.sha256 := sha256;
      this.nonce := 0;
      new;
      this.hash := CalculateHash();
    }

    /**
     * `mineBlock(difficulty)`: raises the nonce one at a time, rehashing, until the hash
     * meets the difficulty. The source loop has no bound; here at most `maxAttempts`
     * nonces are tried and `sealed` says whether the target was reached.
     */
    method MineBlock(difficulty: nat, maxAttempts: nat) returns (sealed: bool)
      modifies this
      ensures index == old(index) && timestamp == old(timestamp)
      ensures transactions == old(transactions) && previousHash == old(previousHash)
      ensures sealed <==> MeetsDifficulty(hash, difficulty)
      ensures old(nonce) <= nonce <= old(nonce) + maxAttempts
      ensures !sealed ==> nonce == old(nonce) + maxAttempts
      ensures nonce == old(nonce) ==> hash == old(hash)
      ensures nonce > old(nonce) ==> hash == CalculateHash() && !MeetsDifficulty(old(hash), difficulty)
      ensures old(hash) == old(CalculateHash()) ==> hash == CalculateHash()
      ensures forall n: nat :: old(nonce) < n < nonce ==>
        !MeetsDifficulty(sha256(index, previousHash, timestamp, transactions, n), difficulty)
    {
      var attempts := 0;
      while !MeetsDifficulty(hash, difficulty) && attempts < maxAttempts
        invariant attempts <= maxAttempts
        invariant nonce == old(nonce) + attempts
        invariant index == old(index) && timestamp == old(timestamp)
        invariant transactions == old(transactions) && previousHash == old(previousHash)
        invariant attempts == 0 ==> hash == old(hash)
        invariant attempts > 0 ==> hash == CalculateHash() && !MeetsDifficulty(old(hash), difficulty)
        invariant forall n: nat :: old(nonce) < n < nonce ==>
          !MeetsDifficulty(sha256(index, previousHash, timestamp, transactions, n), difficulty)
      {
        nonce := nonce + 1;
        hash := CalculateHash();
        attempts := attempts + 1;
      }
      sealed := MeetsDifficulty(hash, difficulty);
    }
  }

  /** The fields of a sequence of blocks, in order. */
  function Snapshot(bs: seq<Block>): (r: seq<BlockData>)
    reads bs
    ensures |r| == |bs|
    ensures forall i :: 0 <= i < |bs| ==> r[i] == bs[i].Data()
  {
    if bs == [] then [] else [bs[0].Data()] + Snapshot(bs[1..])
  }

  class Blockchain {
    var chain: seq<Block>
    var difficulty: nat
    var pendingTransactions: seq<Transaction>
    /** The hash function of every block of this chain. */
    const sha256: Digest

    /**
     * The object invariant: the chain is never empty, each block's index is its position,
     * and every block hashes with this chain's digest.
     */
    ghost predicate Valid()
      reads this, chain
    {
      && |chain| > 0
      && (forall i :: 0 <= i < |chain| ==> chain[i].index == i && chain[i].sha256 == sha256)
    }

    /** The chain's blocks as values. */
    function Blocks(): seq<BlockData>
      reads this, chain
    {
      Snapshot(chain)
    }

    /** A ledger with nothing stored yet: a genesis-only chain of difficulty 2, no pending transactions. */
    constructor (sha256: Digest, now: string)
      ensures Valid()
      ensures this.sha256 == sha256 && difficulty == DefaultDifficulty && pendingTransactions == []
      ensures |chain| == 1 && fresh(chain[0])
      ensures Blocks()[0].transactions == [GenesisTransaction(now)] && Blocks()[0].previousHash == "0"
      ensures ChainValid(sha256, Blocks()) && GetAllTransactions() == []
    {
      var genesis := CreateGenesisBlock(sha256, now);
      chain := [genesis];
      difficulty := DefaultDifficulty;
      pendingTransactions := [];
      this.sha256 := sha256;
      new;
      assert Blocks() == [genesis.Data()];
      assert NonGenesis(genesis.transactions) == [];
      assert AllTransactions(Blocks()) == NonGenesis(genesis.transactions) + AllTransactions([]);
    }

    /**
     * `createGenesisBlock()`: index 0, previous hash "0", one zero-amount transaction with
     * the reserved id. The genesis block is not mined.
     */
    static method CreateGenesisBlock(sha256: Digest, now: string) returns (b: Block)
      ensures fresh(b) && b.sha256 == sha256
      ensures b.index == 0 && b.previousHash == "0" && b.timestamp == now && b.nonce == 0
      ensures b.transactions == [GenesisTransaction(now)]
      ensures |b.transactions| == 1 && b.transactions[0].id == GenesisId && b.transactions[0].amount == 0.0
      ensures b.hash == b.CalculateHash()
    {
      b := new Block(0, [GenesisTransaction(now)], now, sha256, "0");
    }

    /** `getLatestBlock()`: the tip, which carries the highest index. */
    function GetLatestBlock(): (b: Block)
      reads this, chain
      requires Valid()
      ensures b in chain && b.index == |chain| - 1
    {
      chain[|chain| - 1]
    }

    /** `addTransaction(tx)`: buffers one transaction; the chain is not touched. */
    method AddTransaction(tx: Transaction)
      requires Valid()
      modifies this
      ensures Valid()
      ensures pendingTransactions == old(pendingTransactions) + [tx]
      ensures chain == old(chain) && difficulty == old(difficulty)
      ensures Blocks() == old(Blocks())
    {
      pendingTransactions := pendingTransactions + [tx];
    }

    /**
     * The first half of `minePendingTransactions()`: a new block over `txs` at `index`,
     * linked to `previousHash`, mined with at most `maxAttempts` nonces.
     */
    static method MineNewBlock(sha256: Digest, difficulty: nat, index: int, txs: seq<Transaction>,
                               now: string, previousHash: string, maxAttempts: nat)
      returns (block: Block, sealed: bool)
      ensures fresh(block) && block.index == index && block.sha256 == sha256
      ensures sealed ==> IsSeal(sha256, difficulty, block.Data(), index, now, txs, previousHash)
    {
      block := new Block(index, txs, now, sha256, previousHash);
      sealed := block.MineBlock(difficulty, maxAttempts);
      if sealed {
        assert block.hash == HashOf(sha256, block.Data());
      }
    }

    /**
     * `minePendingTransactions()`: seals the pending buffer into a block at index
     * `|chain|` linked to the tip, mines it, appends it and empties the buffer. When the
     * mining budget runs out nothing changes. Saving to storage is not modelled.
     */
    method MinePendingTransactions(now: string, maxAttempts: nat) returns (sealed: bool)
      requires Valid()
      modifies this
      ensures Valid()
      ensures difficulty == old(difficulty)
      ensures !sealed ==> chain == old(chain) && pendingTransactions == old(pendingTransactions)
      ensures sealed ==> |chain| == old(|chain|) + 1 && chain[..old(|chain|)] == old(chain)
      ensures sealed ==> fresh(chain[|chain| - 1]) && pendingTransactions == []
      ensures sealed ==> Blocks()[..old(|chain|)] == old(Blocks())
      ensures sealed ==> IsSeal(sha256, difficulty, Blocks()[|chain| - 1],
        old(|chain|), now, old(pendingTransactions), old(GetLatestBlock().hash))
      ensures sealed ==> GetAllTransactions() == old(GetAllTransactions()) + NonGenesis(old(pendingTransactions))
      ensures old(ChainValid(sha256, Blocks())) ==> ChainValid(sha256, Blocks())
    {
      ghost var before := Blocks();
      var tip := GetLatestBlock();
      var block;
      block, sealed := MineNewBlock(sha256, difficulty, |chain|, pendingTransactions, now, tip.hash, maxAttempts);
      if sealed {
        ghost var prefix := chain;
        ghost var sealedBlock := block.Data();
        chain := chain + [block];
        pendingTransactions := [];
        forall i | 0 <= i < |chain|
          ensures chain[i].index == i && chain[i].sha256 == sha256
        {
          if i < |prefix| {
            assert chain[i] == prefix[i];
          }
        }
        assert Blocks() == before + [sealedBlock];
        AllTransactionsAppend(before, sealedBlock);
        if ChainValid(sha256, before) {
          ChainValidAppend(sha256, before, sealedBlock);
        }
      }
    }

    /** `isChainValid()`: walks the chain from index 1 and stops at the first bad block. */
    method IsChainValid() returns (ok: bool)
      requires forall i :: 0 <= i < |chain| ==> chain[i].sha256 == sha256
      ensures ok <==> ChainValid(sha256, Blocks())
    {
      ghost var blocks := Blocks();
      var i := 1;
      while i < |chain|
        invariant 1 <= i && (i <= |chain| || i == 1)
        invariant forall j :: 1 <= j < i ==>
          blocks[j].hash == HashOf(sha256, blocks[j]) && blocks[j].previousHash == blocks[j - 1].hash
      {
        var current := chain[i];
        var prev := chain[i - 1];
        assert blocks[i] == current.Data() && blocks[i - 1] == prev.Data();
        if current.hash != current.CalculateHash() {
          return false;
        }
        if current.previousHash != prev.hash {
          return false;
        }
        i := i + 1;
      }
      return true;
    }

    /** `getAllTransactions()`: every block's transactions in chain order, the reserved id left out. */
    function GetAllTransactions(): (r: seq<Transaction>)
      reads this, chain
      ensures forall t :: t in r ==> t.id != GenesisId
    {
      AllTransactions(Blocks())
    }
  }
}
