/** The enum-comparison-test program: a `Lottery` account with a merchant, a
    status and a ticket price. `initialize` opens the lottery as `Active`;
    `check_status` reads the account and fails unless the lottery is `Active`. */
module LotteryProgram {
  import opened Anchor

  /** The status enum; it derives `PartialEq`, so `check_status` can compare it. */
  datatype LotteryStatus = Active | Completed | Cancelled

  datatype LotteryError = LotteryNotActive

  /** `space = 8 + 32 + 1 + 8`: discriminator, merchant, status, ticket price. */
  const LOTTERY_SPACE: nat := DISCRIMINATOR_SIZE + PUBKEY_SIZE + ENUM_TAG_SIZE + U64_SIZE

  /** The account's fields, in declared order. */
  datatype LotteryData = LotteryData(merchant: Pubkey, status: LotteryStatus, ticketPrice: U64)

  /** Widths of the encoded fields, in the order they are laid out. */
  function FieldWidths(d: LotteryData): seq<nat>
  {
    [|d.merchant|, ENUM_TAG_SIZE, U64_SIZE]
  }

  /** Bytes the account's record takes in account data. */
  function RecordSize(d: LotteryData): nat
  {
    DISCRIMINATOR_SIZE + Sum(FieldWidths(d))
  }

  /** Every lottery record takes exactly the 49 bytes reserved for it, whatever
      its merchant, status and price. */
  lemma EveryRecordFits(d: LotteryData)
    ensures RecordSize(d) == LOTTERY_SPACE == 49
  {
    var w := FieldWidths(d);
    assert Sum(w[2..]) == w[2] by { assert w[2..][1..] == []; }
    assert Sum(w[1..]) == w[1] + Sum(w[2..]) by { assert w[1..][1..] == w[2..]; }
  }

  class Lottery {
    var merchant: Pubkey
    var status: LotteryStatus
    var ticketPrice: U64
    /** Bytes of account data reserved when the account was created; no handler changes it. */
    const dataLen: nat

    /** The zero-filled record Anchor's `init` creates (tag 0 reads as `Active`),
        with `space` bytes reserved. */
    constructor Allocate(space: nat)
      ensures Data() == LotteryData(DEFAULT_PUBKEY, Active, 0) && dataLen == space
    {
      merchant, status, ticketPrice := DEFAULT_PUBKEY, Active, 0;
      dataLen := space;
    }

    function Data(): LotteryData
      reads this
    {
      LotteryData(merchant, status, ticketPrice)
    }

    /** The current record still fits the bytes reserved for it. */
    predicate StillFits()
      reads this
    {
      RecordSize(Data()) <= dataLen
    }
  }

  /** `initialize`: creates the account and records the user as merchant, the
      status `Active` and the given price. */
  method Initialize(user: Pubkey, ticketPrice: U64)
    returns (lottery: Lottery, r: Outcome<LotteryError>)
    ensures fresh(lottery)
    ensures lottery.Data() == LotteryData(user, Active, ticketPrice)
    ensures lottery.dataLen == LOTTERY_SPACE
    ensures r == Pass
  {
    lottery := new Lottery.Allocate(LOTTERY_SPACE);
    lottery.merchant := user;
    lottery.status := Active;
    lottery.ticketPrice := ticketPrice;
    r := Pass;
  }

  /** `check_status`: reads the account without changing it and succeeds
      exactly when the lottery is `Active`, failing with `LotteryNotActive` otherwise. */
  method CheckStatus(lottery: Lottery) returns (r: Outcome<LotteryError>)
    ensures r == Pass <==> lottery.status == Active
    ensures r != Pass ==> r == Fail(LotteryNotActive)
  {
    if lottery.status != Active {
      return Fail(LotteryNotActive);
    }
    r := Pass;
  }

  /** The test's sequence: initialise, then check. No handler sets any other
      status, so the check on a lottery this program initialised always
      succeeds, and the record fits the bytes reserved for it. */
  method CheckAfterInitialize(user: Pubkey, ticketPrice: U64) returns (r: Outcome<LotteryError>, fits: bool)
    ensures r == Pass
    ensures fits
  {
    var lottery, _ := Initialize(user, ticketPrice);
    r := CheckStatus(lottery);
    EveryRecordFits(lottery.Data());
    fits := lottery.StillFits();
  }
}
