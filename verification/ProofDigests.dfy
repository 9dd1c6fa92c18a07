/** The digests that update proofs are verified against, written out, and what they pin down. */
module ProofDigests {
  import opened Bytes
  import opened Hashing
  import opened Backlog
  import opened Headers
  import opened Bridge
  import Fees
  import PublicInputs
  import Txo = TxoBuffer

  /** The digest a single-block proof is verified against, written out. */
  function UpdateDigest(h: Hash, prev: BridgeHeader, next: BridgeHeader, config: Config, custodian: Digest): Digest {
    h(h(h(HeaderBytes(prev)) + h(HeaderBytes(next))) + (h(ConfigBytes(config)) + custodian))
  }

  /** The digest of a list of blocks, each folded into that of the blocks before it. */
  function ChainDigest(h: Hash, items: seq<Info>): Digest {
    if |items| == 0 then ZERO32
    else
      var n := |items| - 1;
      h(ChainDigest(h, items[..n]) + h(items[n].mintsHash + items[n].txoHash))
  }

  /** The digest a reorganization proof is verified against, written out. */
  function ReorgDigest(h: Hash, prev: BridgeHeader, next: BridgeHeader, extra: seq<Info>, config: Config,
          custodian: Digest): Digest {
    h(h(h(h(HeaderBytes(prev)) + h(HeaderBytes(next))) + ChainDigest(h, extra)) + (h(ConfigBytes(config)) + custodian))
  }

  lemma {:induction false} BacklogHashIsChain(h: Hash, items: seq<Info>)
    ensures PublicInputs.BacklogHash(h, items) == ChainDigest(h, items)
  {
    if |items| > 0 {
      BacklogHashIsChain(h, items[..|items| - 1]);
    }
  }

  lemma {:induction false} ReorgInputsAreDigest(env: Env, b: Bridge, next: BridgeHeader, extra: seq<Info>)
    ensures ReorgTransitionInputs(env, b, next, extra)
         == ReorgDigest(env.h, b.header, next, extra, b.config, b.custodian)
  {
    BacklogHashIsChain(env.h, extra);
  }

  /** The configuration whose fields stand at their places in 48 bytes. */
  function ParseConfig(s: Bytes): Config
    requires |s| == 48
  {
    Config(
      Fees.Rate(ReadU64(s, 32), ReadU64(s, 0), ReadU64(s, 8)),
      Fees.Rate(ReadU64(s, 40), ReadU64(s, 16), ReadU64(s, 24)))
  }

  lemma ParseConfigBytes(c: Config)
    ensures |ConfigBytes(c)| == 48 && ParseConfig(ConfigBytes(c)) == c
  {
    var s := ConfigBytes(c);
    assert s[0..8] == LE64(c.deposit.numerator) && s[8..16] == LE64(c.deposit.denominator);
    assert s[16..24] == LE64(c.withdrawal.numerator) && s[24..32] == LE64(c.withdrawal.denominator);
    assert s[32..40] == LE64(c.deposit.flat) && s[40..48] == LE64(c.withdrawal.flat);
    LE64RoundTrip(c.deposit.numerator);
    LE64RoundTrip(c.deposit.denominator);
    LE64RoundTrip(c.withdrawal.numerator);
    LE64RoundTrip(c.withdrawal.denominator);
    LE64RoundTrip(c.deposit.flat);
    LE64RoundTrip(c.withdrawal.flat);
  }

  /** All messages hashed for the digest of a single-block proof. */
  ghost function HashedForUpdate(h: Hash, prev: BridgeHeader, next: BridgeHeader, config: Config,
          custodian: Digest): set<Bytes> {
    var headers := h(HeaderBytes(prev)) + h(HeaderBytes(next));
    {HeaderBytes(prev), HeaderBytes(next), ConfigBytes(config), headers,
     h(headers) + (h(ConfigBytes(config)) + custodian)}
  }

  /**
   Equal digests of two single-block proofs force the same old and new header, fee configuration
   and custodian, unless messages hashed for them collide.
   */
  lemma UpdateDigestBinding(h: Hash, prev: BridgeHeader, next: BridgeHeader, config: Config, custodian: Digest,
          prev': BridgeHeader, next': BridgeHeader, config': Config, custodian': Digest)
    requires UpdateDigest(h, prev, next, config, custodian) == UpdateDigest(h, prev', next', config', custodian')
    requires CollisionFree(h, HashedForUpdate(h, prev, next, config, custodian)
                              + HashedForUpdate(h, prev', next', config', custodian'))
    ensures prev == prev' && next == next' && config == config' && custodian == custodian'
  {
    var s := HashedForUpdate(h, prev, next, config, custodian) + HashedForUpdate(h, prev', next', config', custodian');
    var m, m' := h(HeaderBytes(prev)) + h(HeaderBytes(next)), h(HeaderBytes(prev')) + h(HeaderBytes(next'));
    var c, c' := h(ConfigBytes(config)), h(ConfigBytes(config'));
    PublicInputs.EqualMessages(h, s, h(m) + (c + custodian), h(m') + (c' + custodian'));
    SplitUniquely(h(m), c + custodian, h(m'), c' + custodian');
    SplitUniquely(c, custodian, c', custodian');
    PublicInputs.EqualMessages(h, s, m, m');
    PublicInputs.EqualMessages(h, s, ConfigBytes(config), ConfigBytes(config'));
    PublicInputs.EqualTransitions(h, s, prev, next, prev', next');
    ParseConfigBytes(config);
    ParseConfigBytes(config');
  }

  // ---- Accepted updates are proved ----

  lemma UpdateInputsAreDigest(env: Env, b: Bridge, next: BridgeHeader)
    ensures SingleInputs(env, b, next) == UpdateDigest(env.h, b.header, next, b.config, b.custodian)
  {
  }

  /** An accepted single-block transition carries a proof of the step from its old to its new header. */
  lemma UpdateIsProved(env: Env, b: Bridge, proof: Bytes, next: BridgeHeader, addr: Key, mem: Bytes, txo: Txo.Account)
    requires txo.Buffer? && SingleTransition(env, b, proof, next, addr, mem, txo).Ok?
    ensures env.verifies(proof, false, UpdateDigest(env.h, b.header, next, b.config, b.custodian))
  {
    UpdateInputsAreDigest(env, b, next);
  }

  /** An accepted reorganization carries a proof of that step which covers all its extra blocks. */
  lemma ReorgIsProved(env: Env, b: Bridge, proof: Bytes, next: BridgeHeader, extra: seq<Info>, addr: Key, mem: Bytes,
          txo: Txo.Account)
    requires txo.Buffer? && ReorgTransition(env, b, proof, next, extra, addr, mem, txo).Ok?
    ensures env.verifies(proof, true, ReorgDigest(env.h, b.header, next, extra, b.config, b.custodian))
  {
    ReorgInputsAreDigest(env, b, next, extra);
  }

  ghost function HashedForReorg(h: Hash, b: Bridge, next: BridgeHeader, extra: seq<Info>): set<Bytes> {
    PublicInputs.HashedForReorg(h, StatementOf(h, b, next, extra)) + {ConfigBytes(b.config)}
  }

  function StatementOf(h: Hash, b: Bridge, next: BridgeHeader, extra: seq<Info>): PublicInputs.ReorgStatement {
    PublicInputs.ReorgStatement(b.header, next, extra, h(ConfigBytes(b.config)), b.custodian)
  }

  lemma FewerMessages(h: Hash, s: set<Bytes>, t: set<Bytes>)
    requires t <= s && CollisionFree(h, s) && PublicInputs.NoneZero(h, s)
    ensures CollisionFree(h, t) && PublicInputs.NoneZero(h, t)
  {
  }

  /**
   A proved digest determines what a reorganization loads: two accepted ones with equal digests
   agree in old and new header, extra blocks, fee configuration and custodian, unless messages
   hashed for them collide or hash to zero.
   */
  lemma {:induction false} ReorgDigestBinding(env: Env, b: Bridge, next: BridgeHeader, extra: seq<Info>,
          b': Bridge, next': BridgeHeader, extra': seq<Info>)
    requires ReorgDigest(env.h, b.header, next, extra, b.config, b.custodian)
          == ReorgDigest(env.h, b'.header, next', extra', b'.config, b'.custodian)
    requires CollisionFree(env.h, HashedForReorg(env.h, b, next, extra) + HashedForReorg(env.h, b', next', extra'))
    requires PublicInputs.NoneZero(env.h,
             HashedForReorg(env.h, b, next, extra) + HashedForReorg(env.h, b', next', extra'))
    ensures b.header == b'.header && next == next' && extra == extra'
    ensures b.config == b'.config && b.custodian == b'.custodian
  {
    var h, s := env.h, HashedForReorg(env.h, b, next, extra) + HashedForReorg(env.h, b', next', extra');
    ReorgInputsAreDigest(env, b, next, extra);
    ReorgInputsAreDigest(env, b', next', extra');
    var x, y := StatementOf(h, b, next, extra), StatementOf(h, b', next', extra');
    FewerMessages(h, s, PublicInputs.HashedForReorg(h, x) + PublicInputs.HashedForReorg(h, y));
    PublicInputs.ReorgInputsBinding(h, x, y);
    PublicInputs.EqualMessages(h, s, ConfigBytes(b.config), ConfigBytes(b'.config));
    ParseConfigBytes(b.config);
    ParseConfigBytes(b'.config);
  }
}
