/** Deposit references and the idempotency keys made from them. */
module DepositKeys {
  import opened Ledger

  datatype Outpoint = Outpoint(txid: string, vout: nat)

  predicate HexDigit(c: char) { '0' <= c <= '9' || 'a' <= c <= 'f' }

  // A transaction id as the node prints it: 64 lower-case hex digits.
  predicate ValidTxid(txid: string) { |txid| == 64 && forall i :: 0 <= i < 64 ==> HexDigit(txid[i]) }

  function Digit(n: nat): char
    requires n < 10
  {
    '0' + (n as char)
  }

  // Decimal notation.
  function Itoa(n: nat): (s: string)
    ensures s != [] && forall i :: 0 <= i < |s| ==> '0' <= s[i] <= '9'
  {
    if n < 10 then [Digit(n)] else Itoa(n / 10) + [Digit(n % 10)]
  }

  function Atoi(s: string): nat
    requires forall i :: 0 <= i < |s| ==> '0' <= s[i] <= '9'
  {
    if s == [] then 0 else 10 * Atoi(s[..|s| - 1]) + (s[|s| - 1] as nat - '0' as nat)
  }

  lemma {:induction false} AtoiItoa(n: nat)
    ensures Atoi(Itoa(n)) == n
  {
    if n >= 10 {
      AtoiItoa(n / 10);
      assert Itoa(n)[..|Itoa(n)| - 1] == Itoa(n / 10);
    } else {
      assert Itoa(n)[..0] == [];
    }
  }

  // Ten more is one more in front of the last digit.
  lemma TenIsTheBase(n: nat)
    ensures Itoa(10) == "10" && |Itoa(10 * n + 10)| == |Itoa(n + 1)| + 1
    ensures Itoa(10 * n + 10)[..|Itoa(n + 1)|] == Itoa(n + 1)
  {
    var m := 10 * n + 10;
    assert m / 10 == n + 1 && m % 10 == 0;
    assert Itoa(m) == Itoa(n + 1) + [Digit(0)];
    assert Itoa(10) == Itoa(1) + [Digit(0)];
  }

  function DepositRef(op: Outpoint): string { op.txid + ":" + Itoa(op.vout) }

  // Different outputs have different references.
  lemma RefInjective(a: Outpoint, b: Outpoint)
    requires ValidTxid(a.txid) && ValidTxid(b.txid)
    requires DepositRef(a) == DepositRef(b)
    ensures a == b
  {
    var s := DepositRef(a);
    assert s[..64] == a.txid && s[65..] == Itoa(a.vout);
    assert DepositRef(b)[..64] == b.txid && DepositRef(b)[65..] == Itoa(b.vout);
    AtoiItoa(a.vout);
    AtoiItoa(b.vout);
  }

  lemma PrefixInjective(prefix: string, a: string, b: string)
    requires prefix + a == prefix + b
    ensures a == b
  {
    assert (prefix + a)[|prefix|..] == a;
    assert (prefix + b)[|prefix|..] == b;
  }

  // The three keys of a deposit and those of any other deposit never coincide.
  lemma FamiliesAreDisjoint(a: Outpoint, b: Outpoint)
    requires ValidTxid(a.txid) && ValidTxid(b.txid)
    ensures DepositRef(a) != ConfirmKey(DepositRef(b))
    ensures DepositRef(a) != CancelKey(DepositRef(b))
    ensures ConfirmKey(DepositRef(a)) != CancelKey(DepositRef(b))
    ensures ConfirmKey(DepositRef(a)) == ConfirmKey(DepositRef(b)) ==> a == b
    ensures CancelKey(DepositRef(a)) == CancelKey(DepositRef(b)) ==> a == b
  {
    var ra, rb := DepositRef(a), DepositRef(b);
    assert ra[1] == a.txid[1] && ra[2] == a.txid[2];
    assert ConfirmKey(rb)[1] == 'o' && CancelKey(rb)[2] == 'n';
    assert ConfirmKey(ra)[1] == 'o' && CancelKey(rb)[1] == 'a';
    if ConfirmKey(ra) == ConfirmKey(rb) {
      PrefixInjective("confirm:", ra, rb);
      RefInjective(a, b);
    }
    if CancelKey(ra) == CancelKey(rb) {
      PrefixInjective("cancel:", ra, rb);
      RefInjective(a, b);
    }
  }

  // ---------------------------------------------------------------- reading keys back

  datatype Effect = Escrowing | Confirming | Cancelling

  datatype Parsed = Parsed(effect: Effect, op: Outpoint) | NotADeposit

  predicate Digits(s: string) { s != [] && forall i :: 0 <= i < |s| ==> '0' <= s[i] <= '9' }

  function ParseRef(effect: Effect, ref: string): Parsed {
    if |ref| > 65 && ref[64] == ':' && Digits(ref[65..]) then Parsed(effect, Outpoint(ref[..64], Atoi(ref[65..])))
    else NotADeposit
  }

  // The effect and the output a key is for.
  function ParseKey(key: string): Parsed {
    if "confirm:" <= key then ParseRef(Confirming, key[8..])
    else if "cancel:" <= key then ParseRef(Cancelling, key[7..])
    else ParseRef(Escrowing, key)
  }

  lemma RefReadsBack(effect: Effect, op: Outpoint)
    requires ValidTxid(op.txid)
    ensures ParseRef(effect, DepositRef(op)) == Parsed(effect, op)
  {
    var ref := DepositRef(op);
    assert ref[..64] == op.txid && ref[65..] == Itoa(op.vout);
    AtoiItoa(op.vout);
  }

  // From a deposit's key the effect and the output can be read back.
  lemma KeysReadBack(op: Outpoint)
    requires ValidTxid(op.txid)
    ensures ParseKey(DepositRef(op)) == Parsed(Escrowing, op)
    ensures ParseKey(ConfirmKey(DepositRef(op))) == Parsed(Confirming, op)
    ensures ParseKey(CancelKey(DepositRef(op))) == Parsed(Cancelling, op)
  {
    var ref := DepositRef(op);
    RefReadsBack(Escrowing, op);
    RefReadsBack(Confirming, op);
    RefReadsBack(Cancelling, op);
    assert ConfirmKey(ref)[8..] == ref && CancelKey(ref)[7..] == ref;
    assert CancelKey(ref)[1] == 'a' && ref[1] == op.txid[1] && ref[2] == op.txid[2];
    assert !("confirm:" <= CancelKey(ref)) && "cancel:" <= CancelKey(ref);
    assert !("confirm:" <= ref) by {
      assert "confirm:"[1] == 'o';
    }
    assert !("cancel:" <= ref) by {
      assert "cancel:"[2] == 'n';
    }
  }

  // Keys that belong to some deposit.
  ghost predicate DepositKey(key: string) {
    exists op: Outpoint :: ValidTxid(op.txid)
      && (key == DepositRef(op) || key == ConfirmKey(DepositRef(op)) || key == CancelKey(DepositRef(op)))
  }
}
