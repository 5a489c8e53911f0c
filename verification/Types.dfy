/** Identifiers, and the sets of days that have been attested for each address. */
module Types {
  type Addr = string
  type Id = string

  /** For each address, the days for which a flag has been set. */
  type DayFlags = map<Addr, set<nat>>

  function DaysOf(flags: DayFlags, who: Addr): set<nat> {
    if who in flags then flags[who] else {}
  }

  function Marked(flags: DayFlags, who: Addr, day: nat): DayFlags {
    flags[who := DaysOf(flags, who) + {day}]
  }

  lemma DaysOfMarked(flags: DayFlags, met: bool, who: Addr, day: nat, a: Addr)
    ensures DaysOf(if met then Marked(flags, who, day) else flags, a)
         == if met && a == who then DaysOf(flags, a) + {day} else DaysOf(flags, a)
  {
  }
}
