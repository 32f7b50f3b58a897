/** The serialization-log-test program: one `TestAccount` holding a status, a
    number, a name, a flag and an amount. `initialize` fills every field;
    `update` decodes a status byte and, when it is valid, overwrites every field. */
module SerializationProgram {
  import opened Anchor

  datatype LotteryStatus = Active | Completed | Cancelled

  datatype ErrorCode = InvalidStatus

  /** Name bytes the reserved space has room for. */
  const MAX_NAME_LEN: nat := 100

  /** `space = 8 + 1 + 8 + 4 + 100 + 1 + 16`: discriminator, status, number,
      name (length prefix and up to 100 bytes), active, amount. */
  const ACCOUNT_SPACE: nat :=
    DISCRIMINATOR_SIZE + ENUM_TAG_SIZE + U64_SIZE + LEN_PREFIX_SIZE + MAX_NAME_LEN + BOOL_SIZE + U128_SIZE

  /** The `match status` in `update`: the three declared positions decode to
      their status, every other byte is `InvalidStatus`. */
  function DecodeStatus(b: U8): (r: Result<LotteryStatus, ErrorCode>)
    ensures r.Success? <==> b <= 2
    ensures r.Failure? ==> r.error == InvalidStatus
  {
    if b == 0 then Success(Active)
    else if b == 1 then Success(Completed)
    else if b == 2 then Success(Cancelled)
    else Failure(InvalidStatus)
  }

  /** The byte that stands for a status: its position in the enum's
      declaration, which `update` decodes back to the same status. */
  function StatusByte(s: LotteryStatus): (b: U8)
    ensures DecodeStatus(b) == Success(s)
  {
    match s
    case Active => 0
    case Completed => 1
    case Cancelled => 2
  }

  /** Every byte `update` accepts is the byte of the status it decodes to. */
  lemma DecodedStatusByte(b: U8)
    requires b <= 2
    ensures StatusByte(DecodeStatus(b).value) == b
  {
  }

  /** The account's fields, in declared order; `name` is the UTF-8 bytes of the `String`. */
  datatype AccountData = AccountData(status: LotteryStatus, number: U64, name: seq<U8>, active: bool, amount: U128)

  /** The arguments of `update`, before the status byte is decoded. */
  datatype UpdateArgs = UpdateArgs(status: U8, number: U64, name: seq<U8>, active: bool, amount: U128)

  /** The account after `update(args)`: every field replaced when the status
      byte decodes, nothing changed when it does not. */
  function Updated(before: AccountData, args: UpdateArgs): (after: AccountData)
    ensures args.status > 2 ==> after == before
    ensures args.status <= 2 ==> StatusByte(after.status) == args.status
    ensures args.status <= 2 ==> after.number == args.number && after.name == args.name
    ensures args.status <= 2 ==> after.active == args.active && after.amount == args.amount
  {
    match DecodeStatus(args.status)
    case Success(s) => AccountData(s, args.number, args.name, args.active, args.amount)
    case Failure(_) => before
  }

  /** A valid update writes the same account whatever the account held before. */
  lemma UpdateOverwritesAll(before: AccountData, other: AccountData, args: UpdateArgs)
    requires args.status <= 2
    ensures Updated(before, args) == Updated(other, args)
  {
  }

  /** Repeating an update changes nothing more. */
  lemma UpdateIdempotent(before: AccountData, args: UpdateArgs)
    ensures Updated(Updated(before, args), args) == Updated(before, args)
  {
  }

  /** Widths of the encoded fields, in the order they are laid out. */
  function FieldWidths(d: AccountData): seq<nat>
  {
    [ENUM_TAG_SIZE, U64_SIZE, LEN_PREFIX_SIZE + |d.name|, BOOL_SIZE, U128_SIZE]
  }

  /** Bytes the account's record takes in account data. */
  function RecordSize(d: AccountData): nat
  {
    DISCRIMINATOR_SIZE + Sum(FieldWidths(d))
  }

  /** The reserved space is 138 bytes, and a record fits it exactly when its
      name has at most 100 bytes. */
  lemma FitsIffNameWithinLimit(d: AccountData)
    ensures ACCOUNT_SPACE == 138
    ensures RecordSize(d) <= ACCOUNT_SPACE <==> |d.name| <= MAX_NAME_LEN
  {
    var w := FieldWidths(d);
    assert Sum(w[4..]) == w[4] by { assert w[4..][1..] == []; }
    assert Sum(w[3..]) == w[3] + Sum(w[4..]) by { assert w[3..][1..] == w[4..]; }
    assert Sum(w[2..]) == w[2] + Sum(w[3..]) by { assert w[2..][1..] == w[3..]; }
    assert Sum(w[1..]) == w[1] + Sum(w[2..]) by { assert w[1..][1..] == w[2..]; }
  }

  class TestAccount {
    var status: LotteryStatus
    var number: U64
    var name: seq<U8>
    var active: bool
    var amount: U128
    /** Bytes of account data reserved when the account was created; no handler changes it. */
    const dataLen: nat

    /** The zero-filled record Anchor's `init` creates (tag 0 reads as `Active`),
        with `space` bytes reserved. */
    constructor Allocate(space: nat)
      ensures Data() == AccountData(Active, 0, [], false, 0) && dataLen == space
    {
      status, number, name, active, amount := Active, 0, [], false, 0;
      dataLen := space;
    }

    /** The current record still fits the bytes reserved for it. */
    predicate StillFits()
      reads this
    {
      RecordSize(Data()) <= dataLen
    }

    function Data(): AccountData
      reads this
    {
      AccountData(status, number, name, active, amount)
    }

    /** `update`: decodes the status byte first and returns `InvalidStatus`
        before writing any field when it is out of range; otherwise overwrites
        all five fields. */
    method Update(status: U8, number: U64, name: seq<U8>, active: bool, amount: U128)
      returns (r: Outcome<ErrorCode>)
      modifies this
      ensures r == if status <= 2 then Pass else Fail(InvalidStatus)
      ensures Data() == Updated(old(Data()), UpdateArgs(status, number, name, active, amount))
    {
      var decoded := DecodeStatus(status);
      if decoded.Failure? {
        return Fail(InvalidStatus);
      }
      this.status := decoded.value;
      this.number := number;
      this.name := name;
      this.active := active;
      this.amount := amount;
      r := Pass;
    }
  }

  /** `initialize`: creates the account with `ACCOUNT_SPACE` bytes and sets the
      status to `Active`, the flag to true and the rest to the arguments. */
  method Initialize(number: U64, name: seq<U8>, amount: U128)
    returns (account: TestAccount, r: Outcome<ErrorCode>)
    ensures fresh(account)
    ensures account.Data() == AccountData(Active, number, name, true, amount)
    ensures account.dataLen == ACCOUNT_SPACE
    ensures r == Pass
  {
    account := new TestAccount.Allocate(ACCOUNT_SPACE);
    account.status := Active;
    account.number := number;
    account.name := name;
    account.active := true;
    account.amount := amount;
    r := Pass;
  }

  /** "Initial Name" and "Updated Name" as ASCII bytes, the names the update test uses. */
  const INITIAL_NAME: seq<U8> := [73, 110, 105, 116, 105, 97, 108, 32, 78, 97, 109, 101]
  const UPDATED_NAME: seq<U8> := [85, 112, 100, 97, 116, 101, 100, 32, 78, 97, 109, 101]

  /** The update test: initialise with (100, "Initial Name", 5000000), then
      update with (1, 200, "Updated Name", false, 10000000). Both succeed, the
      status reads `Completed`, and the record still fits the reserved space. */
  method UpdateScenario() returns (first: Outcome<ErrorCode>, second: Outcome<ErrorCode>, data: AccountData, fits: bool)
    ensures first == Pass && second == Pass
    ensures data == AccountData(Completed, 200, UPDATED_NAME, false, 10000000)
    ensures fits
  {
    var account;
    account, first := Initialize(100, INITIAL_NAME, 5000000);
    second := account.Update(1, 200, UPDATED_NAME, false, 10000000);
    data := account.Data();
    FitsIffNameWithinLimit(data);
    fits := account.StillFits();
  }
}
