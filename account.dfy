/**
 * Accounts and their storage. Storage is a dictionary with a default value of
 * zero; reading a missing key of symbolic (non-concrete) storage records the
 * zero it returns. Storage loading from a live node is not part of this model,
 * so every Storage here is one without a dynamic loader.
 */
module Account {
  import opened Wrappers
  import opened Smt
  import opened Text

  /** A storage key: the source accepts an integer or a string. */
  datatype StorageKey = IntKey(i: int) | StrKey(s: string)

  /**
   * Whether a missing-key read raises `ValueError`: a non-empty address whose
   * text after its first two characters is not a base-16 integer fails in
   * `int(self.address[2:], 16)` before any loader is consulted.
   */
  predicate AddressRaises(address: Option<string>) {
    address.Some? && address.value != []
    && !ParsesAsHexInt(if |address.value| >= 2 then address.value[2..] else [])
  }

  /** An address printed by `hex` never raises; "0x" alone does. */
  lemma AddressRaisesExactly(n: nat)
    ensures !AddressRaises(Some(Hex(n)))
    ensures AddressRaises(Some("0x")) && !AddressRaises(None) && !AddressRaises(Some(""))
  {
    HexDigitsParse(n);
    assert Hex(n)[2..] == HexDigits(n);
  }

  class Storage {
    /** `_storage`: the stored and the memoised values. */
    var storage: map<StorageKey, Word>
    /** Whether uninitialised storage reads as a plain concrete zero. */
    const concrete: bool
    const address: Option<string>

    constructor (concrete: bool, address: Option<string>)
      ensures storage == map[] && this.concrete == concrete && this.address == address
    {
      storage := map[];
      this.concrete := concrete;
      this.address := address;
    }

    /**
     * `__getitem__`: a stored key gives its value. For a missing key, an
     * address that is not hex text raises `ValueError`; otherwise the read
     * gives zero, and with symbolic storage that zero is also recorded under
     * the key.
     */
    method Get(item: StorageKey) returns (r: Result<Word>)
      modifies this
      ensures item in old(storage) ==> r == Success(old(storage)[item]) && storage == old(storage)
      ensures item !in old(storage) && AddressRaises(address) ==> r == Failure(ValueError) && storage == old(storage)
      ensures item !in old(storage) && !AddressRaises(address) ==> r == Success(Lit(0))
      ensures item !in old(storage) && !AddressRaises(address) && concrete ==> storage == old(storage)
      ensures item !in old(storage) && !AddressRaises(address) && !concrete ==> storage == old(storage)[item := Lit(0)]
      ensures r.Success? && !concrete ==> item in Keys()
    {
      if item in storage {
        return Success(storage[item]);
      }
      if AddressRaises(address) {
        return Failure(ValueError);
      }
      if concrete {
        return Success(Lit(0));
      }
      storage := storage[item := Lit(0)];
      r := Success(storage[item]);
    }

    /** `__setitem__`: the key now holds the value; every other key is unchanged. */
    method Set(key: StorageKey, value: Word)
      modifies this
      ensures storage == old(storage)[key := value]
      ensures forall k :: k != key && k in old(storage) ==> k in storage && storage[k] == old(storage)[k]
    {
      storage := storage[key := value];
    }

    /** `keys()`: the keys written or memoised so far. */
    function Keys(): set<StorageKey>
      reads this
    {
      storage.Keys
    }
  }

  /** Python truthiness of the optional balance argument (a concrete zero is falsy). */
  predicate Truthy(balance: Option<Word>) {
    balance.Some? && balance.value != Lit(0)
  }

  class Account {
    var nonce: nat
    /** The account's bytecode; empty when none is given. */
    const code: string
    var balance: Word
    const storage: Storage
    const address: string
    const contractName: string
    var deleted: bool

    /**
     * A new account: nonce zero, not deleted, storage empty, and the given
     * balance when it is truthy, otherwise the symbol `<address>_balance`.
     */
    constructor (address: string, code: Option<string>, contractName: string,
                 balance: Option<Word>, concreteStorage: bool)
      ensures nonce == 0 && !deleted
      ensures this.code == code.GetOr("")
      ensures this.balance == if Truthy(balance) then balance.value else Sym(address + "_balance")
      ensures fresh(storage) && storage.storage == map[]
      ensures storage.concrete == concreteStorage && storage.address == Some(address)
      ensures this.address == address && this.contractName == contractName
    {
      nonce := 0;
      this.code := code.GetOr("");
      this.balance := if Truthy(balance) then balance.value else Sym(address + "_balance");
      storage := new Storage(concreteStorage, Some(address));
      this.address := address;
      this.contractName := contractName;
      deleted := false;
    }

    /** `set_balance`: replaces the balance; nothing else changes. */
    method SetBalance(b: Word)
      modifies this`balance
      ensures balance == b
    {
      balance := b;
    }

    /** `add_balance`: adds to the balance with 256-bit wrap-around; nothing else changes. */
    method AddBalance(b: Word)
      modifies this`balance
      ensures balance == Sum(old(balance), b)
      ensures forall v :: Eval(balance, v) == (Eval(old(balance), v) + Eval(b, v)) % Modulus
    {
      balance := Sum(balance, b);
    }
  }
}
