/** The reallocation-error-test program: one `Ticket` account per buyer, holding
    the buyer's key and a growable list of u32 ticket numbers. Its handlers
    create the account, append tickets supplied by the caller, and append a
    generated batch of tickets before making a lamport transfer. */
module TicketProgram {
  import opened Anchor

  /** Tickets that `initialize` reserves room for. */
  const INITIALIZE_CAPACITY: U32 := 100
  /** Tickets that `initialize_large` reserves room for. */
  const INITIALIZE_LARGE_CAPACITY: U32 := 1000
  /** The number `test_cpi_reallocation_limit` gives its first generated ticket. */
  const FIRST_GENERATED_TICKET: nat := 1000
  /** Most tickets `test_cpi_reallocation_limit` can number without leaving u32. */
  const MAX_GENERATED_COUNT: nat := 0x1_0000_0000 - FIRST_GENERATED_TICKET
  /** Growth in bytes above which `test_cpi_reallocation_limit` logs its 10 KB warning. */
  const REALLOC_WARNING_THRESHOLD: nat := 10240
  /** Lamports `test_cpi_reallocation_limit` transfers from the buyer to the receiver. */
  const TRANSFER_LAMPORTS: U64 := 1000

  // ---------------------------------------------------------------------------
  // Sizes

  /** Bytes the elements of an encoded ticket list take, counted one element at a time. */
  function TicketsSize(tickets: seq<U32>): nat
  {
    if tickets == [] then 0 else U32_SIZE + TicketsSize(tickets[1..])
  }

  /** Bytes a `Ticket` record takes in account data: discriminator, buyer key,
      then the ticket list as a length prefix followed by its elements. */
  function RecordSize(tickets: seq<U32>): nat
  {
    DISCRIMINATOR_SIZE + PUBKEY_SIZE + LEN_PREFIX_SIZE + TicketsSize(tickets)
  }

  /** A record holding `tickets` fits in an account of `reserved` bytes. */
  predicate Fits(tickets: seq<U32>, reserved: nat)
  {
    RecordSize(tickets) <= reserved
  }

  lemma {:induction false} TicketsSizeLinear(tickets: seq<U32>)
    ensures TicketsSize(tickets) == U32_SIZE * |tickets|
  {
    if tickets != [] {
      TicketsSizeLinear(tickets[1..]);
    }
  }

  /** `TicketsSizeLinear` for every list at once. */
  lemma TicketsSizeLinearAll()
    ensures forall tickets: seq<U32> :: TicketsSize(tickets) == U32_SIZE * |tickets|
  {
    forall tickets: seq<U32> ensures TicketsSize(tickets) == U32_SIZE * |tickets| {
      TicketsSizeLinear(tickets);
    }
  }

  /** `Ticket::space`: bytes to reserve for a ticket account holding
      `ticketCount` numbers, which is exactly the size of every record
      holding that many. */
  function Space(ticketCount: U32): (r: nat)
    ensures forall tickets: seq<U32> :: |tickets| == ticketCount ==> RecordSize(tickets) == r
  {
    TicketsSizeLinearAll();
    DISCRIMINATOR_SIZE + PUBKEY_SIZE + LEN_PREFIX_SIZE + ticketCount * U32_SIZE
  }

  /** Reserving room for more tickets always reserves more bytes. */
  lemma SpaceStrictlyIncreasing(m: U32, n: U32)
    requires m < n
    ensures Space(m) < Space(n)
  {
  }

  /** The two sizes the account-creating instructions reserve. */
  lemma ReservedSpaces()
    ensures Space(INITIALIZE_CAPACITY) == 444
    ensures Space(INITIALIZE_LARGE_CAPACITY) == 4044
  {
  }

  /** A list fits the space reserved for `capacity` tickets exactly when it holds at most `capacity`. */
  lemma FitsIffWithinCapacity(tickets: seq<U32>, capacity: U32)
    ensures Fits(tickets, Space(capacity)) <==> |tickets| <= capacity
  {
    TicketsSizeLinear(tickets);
  }

  // ---------------------------------------------------------------------------
  // Generated tickets

  /** `(0..count).map(|i| i + 1000).collect()`. */
  function GeneratedTickets(count: nat): (tickets: seq<U32>)
    requires count <= MAX_GENERATED_COUNT
    ensures |tickets| == count
    ensures forall i :: 0 <= i < count ==> tickets[i] == FIRST_GENERATED_TICKET + i
  {
    if count == 0 then [] else GeneratedTickets(count - 1) + [FIRST_GENERATED_TICKET + count - 1]
  }

  /** `size_increase`: bytes a batch of new tickets adds to the record, whatever
      list it is appended to. */
  function SizeIncrease(newTickets: seq<U32>): (r: nat)
    ensures forall before: seq<U32> :: RecordSize(before + newTickets) == RecordSize(before) + r
  {
    TicketsSizeLinearAll();
    |newTickets| * U32_SIZE
  }

  /** A generated batch grows the record by four bytes per ticket, and the
      warning fires from 2561 tickets (10,244 bytes) on, never for 2560. */
  lemma GeneratedGrowth(count: nat)
    requires count <= MAX_GENERATED_COUNT
    ensures SizeIncrease(GeneratedTickets(count)) == U32_SIZE * count
    ensures SizeIncrease(GeneratedTickets(count)) > REALLOC_WARNING_THRESHOLD <==> count >= 2561
  {
  }

  // ---------------------------------------------------------------------------
  // The account and its handlers

  class Ticket {
    var buyer: Pubkey
    var ticketNumbers: seq<U32>
    /** Bytes of account data reserved when the account was created; no handler changes it. */
    const dataLen: nat

    /** The zero-filled record Anchor's `init` creates, with `space` bytes reserved. */
    constructor Allocate(space: nat)
      ensures buyer == DEFAULT_PUBKEY && ticketNumbers == [] && dataLen == space
    {
      buyer := DEFAULT_PUBKEY;
      ticketNumbers := [];
      dataLen := space;
    }

    /** The current record still fits the bytes reserved for it. */
    predicate StillFits()
      reads this
    {
      Fits(ticketNumbers, dataLen)
    }

    /** `add_tickets`: appends the caller's tickets in place; nothing in it fails. */
    method AddTickets(newTickets: seq<U32>) returns (r: Outcome<ProgramError>)
      modifies this
      ensures ticketNumbers == old(ticketNumbers) + newTickets
      ensures |ticketNumbers| == |old(ticketNumbers)| + |newTickets|
      ensures buyer == old(buyer)
      ensures r == Pass
    {
      ticketNumbers := ticketNumbers + newTickets;
      r := Pass;
    }

    /** `test_cpi_reallocation_limit`: generates `ticketCount` tickets numbered from
        1000, appends them, and only then asks `invoke` to transfer lamports from
        `signer` to `receiver`, returning what the transfer returns. Because the
        append comes first, it is in the record whether or not the transfer fails.
        `overLimit` is whether the 10 KB warning branch is taken. */
    method TestCpiReallocationLimit(ticketCount: U32, signer: Pubkey, receiver: Pubkey,
                                    invoke: Transfer -> Outcome<ProgramError>)
      returns (r: Outcome<ProgramError>, sizeIncrease: nat, overLimit: bool)
      requires ticketCount <= MAX_GENERATED_COUNT
      modifies this
      ensures ticketNumbers == old(ticketNumbers) + GeneratedTickets(ticketCount)
      ensures buyer == old(buyer)
      ensures sizeIncrease == U32_SIZE * ticketCount
      ensures RecordSize(ticketNumbers) == RecordSize(old(ticketNumbers)) + sizeIncrease
      ensures overLimit <==> sizeIncrease > REALLOC_WARNING_THRESHOLD
      ensures r == invoke(Transfer(signer, receiver, TRANSFER_LAMPORTS))
    {
      var newTickets := GeneratedTickets(ticketCount);
      sizeIncrease := SizeIncrease(newTickets);
      overLimit := sizeIncrease > REALLOC_WARNING_THRESHOLD;
      ticketNumbers := ticketNumbers + newTickets;
      r := invoke(Transfer(signer, receiver, TRANSFER_LAMPORTS));
    }
  }

  /** `initialize`: creates the account with room for 100 tickets and records
      the signer and the given tickets. */
  method Initialize(buyer: Pubkey, initialTickets: seq<U32>) returns (ticket: Ticket, r: Outcome<ProgramError>)
    ensures fresh(ticket)
    ensures ticket.dataLen == Space(INITIALIZE_CAPACITY)
    ensures ticket.buyer == buyer && ticket.ticketNumbers == initialTickets
    ensures r == Pass
  {
    ticket := new Ticket.Allocate(Space(INITIALIZE_CAPACITY));
    ticket.buyer := buyer;
    ticket.ticketNumbers := initialTickets;
    r := Pass;
  }

  /** `initialize_large`: as `initialize`, with room for 1000 tickets. */
  method InitializeLarge(buyer: Pubkey, initialTickets: seq<U32>) returns (ticket: Ticket, r: Outcome<ProgramError>)
    ensures fresh(ticket)
    ensures ticket.dataLen == Space(INITIALIZE_LARGE_CAPACITY)
    ensures ticket.buyer == buyer && ticket.ticketNumbers == initialTickets
    ensures r == Pass
  {
    ticket := new Ticket.Allocate(Space(INITIALIZE_LARGE_CAPACITY));
    ticket.buyer := buyer;
    ticket.ticketNumbers := initialTickets;
    r := Pass;
  }

  // ---------------------------------------------------------------------------
  // The outcomes of the two tests' handler sequences, as the model proves them

  /** First scenario: initialise with [1, 2, 3], then add [4, 5]. Both handlers
      succeed and the five tickets still fit the 444 bytes reserved. */
  method AddTicketsScenario(buyer: Pubkey)
    returns (first: Outcome<ProgramError>, second: Outcome<ProgramError>, tickets: seq<U32>, fits: bool)
    ensures first == Pass && second == Pass
    ensures tickets == [1, 2, 3, 4, 5]
    ensures fits
  {
    var ticket;
    ticket, first := Initialize(buyer, [1, 2, 3]);
    assert |ticket.ticketNumbers| == 3;
    second := ticket.AddTickets([4, 5]);
    tickets := ticket.ticketNumbers;
    FitsIffWithinCapacity(tickets, INITIALIZE_CAPACITY);
    fits := ticket.StillFits();
  }

  /** Second scenario: initialise the large account with tickets 1 to 10, then
      generate 2561 more. The growth is 10,244 bytes, the warning fires, and the
      2571 tickets no longer fit the 4044 bytes reserved for 1000. */
  method CpiLimitScenario(buyer: Pubkey, receiver: Pubkey, invoke: Transfer -> Outcome<ProgramError>)
    returns (count: nat, sizeIncrease: nat, overLimit: bool, fits: bool)
    ensures count == 2571
    ensures sizeIncrease == 10244 && overLimit
    ensures !fits
  {
    var ticket, _ := InitializeLarge(buyer, [1, 2, 3, 4, 5, 6, 7, 8, 9, 10]);
    var r;
    r, sizeIncrease, overLimit := ticket.TestCpiReallocationLimit(2561, buyer, receiver, invoke);
    count := |ticket.ticketNumbers|;
    FitsIffWithinCapacity(ticket.ticketNumbers, INITIALIZE_LARGE_CAPACITY);
    fits := ticket.StillFits();
  }
}
