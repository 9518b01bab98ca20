/** Faker, uuid, the clock and the random module, as an oracle the caller
    supplies. Each draw is identified by the generator it comes from and its
    position in the run (a record index, a field slot, ...), so a run is a
    deterministic function of the oracle. The oracle fixes every draw,
    including those the seed does not (uuid4, the clock, pandas' sample). */
module Oracle {
  import opened Values

  /** The library call a text draw stands for. */
  datatype Provider =
    | Name                      // fake.name()
    | SafeEmail                 // fake.safe_email()
    | Address                   // fake.address()
    | PhoneNumber               // fake.phone_number()
    | Uuid4                     // str(uuid.uuid4())
    | Word                      // fake.word()
    | DateTimeBetween(start: Value)  // fake.date_time_between(start_date=start, end_date="now").isoformat()
    | UtcNow                    // datetime.utcnow()

  /** The position of one draw in a run. */
  type Site = seq<nat>

  /** `text` gives the opaque string a provider returns at a site; `raw` the
      raw random number behind a bounded random choice at a site;
      `startOk` whether `fake.date_time_between` accepts a value as its
      `start_date` rather than raising. */
  datatype Faker = Faker(text: (Provider, Site) -> string, raw: Site -> nat, startOk: Value -> bool)

  /** The start date both generators use by default. */
  const DefaultStart := VStr("-3y")

  /** Whether the start date `start` is accepted; the default relative date
      "three years back" always is. */
  predicate StartParses(o: Faker, start: Value)
  {
    start == DefaultStart || o.startOk(start)
  }

  /** A random choice in `[lo, hi]` (`random.randint`, `random.choice` over
      `hi - lo + 1` entries) made from the raw number `r`. */
  function Pick(lo: int, hi: int, r: nat): (v: int)
    requires lo <= hi
    ensures lo <= v <= hi
  {
    lo + r % (hi - lo + 1)
  }

  /** Every value of the range is a possible choice. */
  lemma PickCovers(lo: int, hi: int, v: int)
    requires lo <= v <= hi
    ensures Pick(lo, hi, v - lo) == v
  {
  }

  /** `random.choice` over `n` entries (as `seq[randbelow(n)]`) made from
      the raw number `r`: the position `r` modulo `n`, by repeated
      subtraction. */
  function Choose(r: nat, n: nat): (i: nat)
    requires n > 0
    ensures i < n
  {
    if r < n then r else Choose(r - n, n)
  }

  /** Every position is a possible choice. */
  lemma ChooseCovers(i: nat, n: nat)
    requires i < n
    ensures Choose(i, n) == i
  {
  }
}
