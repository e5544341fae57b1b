/** The tab state machine (`SelectedTab` in src/app/selected_tab.rs, repeated in
    src/app/mod.rs): two ordered variants, moved between by ordinal arithmetic that
    saturates at both ends. */
module Tabs {
  import opened Status

  /** The largest `usize` (64-bit target). */
  const USIZE_MAX: nat := 0xFFFF_FFFF_FFFF_FFFF

  type usize = n: nat | n <= USIZE_MAX

  /** Variants in declaration order: `Live` has ordinal 0, `Chart` ordinal 1. */
  datatype SelectedTab = Live | Chart

  /** `self as usize`. */
  function Ordinal(t: SelectedTab): (n: usize)
    ensures n < 2
  {
    match t
    case Live => 0
    case Chart => 1
  }

  /** `SelectedTab::from_repr` (strum): the variant with ordinal `n`, if there is one. */
  function FromRepr(n: usize): (r: Option<SelectedTab>)
    ensures r.Some? <==> n < 2
    ensures r.Some? ==> Ordinal(r.value) == n
  {
    if n == 0 then Some(Live) else if n == 1 then Some(Chart) else None
  }

  /** `usize::saturating_add`. */
  function SaturatingAdd(a: usize, b: usize): (r: usize)
    ensures a + b <= USIZE_MAX ==> r == a + b
    ensures a + b > USIZE_MAX ==> r == USIZE_MAX
  {
    if a + b > USIZE_MAX then USIZE_MAX else a + b
  }

  /** `usize::saturating_sub` (it cannot overflow, so any natural operands will do). */
  function SaturatingSub(a: nat, b: nat): (r: nat)
    ensures a >= b ==> r == a - b
    ensures a < b ==> r == 0
  {
    if a < b then 0 else a - b
  }

  /** `SelectedTab::next`: one variant on, or unchanged at the last one. */
  function Next(t: SelectedTab): (r: SelectedTab)
    ensures Ordinal(t) <= Ordinal(r) <= Ordinal(t) + 1
    ensures r == t <==> t == Chart
  {
    FromRepr(SaturatingAdd(Ordinal(t), 1)).UnwrapOr(t)
  }

  /** `SelectedTab::prev`: one variant back, or unchanged at the first one. */
  function Prev(t: SelectedTab): (r: SelectedTab)
    ensures Ordinal(t) - 1 <= Ordinal(r) <= Ordinal(t)
    ensures r == t <==> t == Live
  {
    FromRepr(SaturatingSub(Ordinal(t), 1)).UnwrapOr(t)
  }

  /** The strum `Display` text of a variant. */
  function DisplayName(t: SelectedTab): string
  {
    match t
    case Live => "Live"
    case Chart => "Chart"
  }

  /** `SelectedTab::title`: the display name padded by two spaces on each side. */
  function Title(t: SelectedTab): (r: string)
    ensures |r| == |DisplayName(t)| + 4
    ensures r[..2] == "  " && r[|r| - 2..] == "  "
    ensures r[2..|r| - 2] == DisplayName(t)
  {
    "  " + DisplayName(t) + "  "
  }

  /** The transitions between the two variants. */
  lemma Transitions()
    ensures Next(Live) == Chart && Next(Chart) == Chart
    ensures Prev(Chart) == Live && Prev(Live) == Live
    ensures Prev(Next(Live)) == Live && Next(Prev(Chart)) == Chart
  {
  }

  /** Past a boundary further calls change nothing: `next` and `prev` are idempotent. */
  lemma SaturatingAtBoundaries(t: SelectedTab)
    ensures Next(Next(t)) == Next(t)
    ensures Prev(Prev(t)) == Prev(t)
  {
  }

  /** Distinct tabs have distinct titles. */
  lemma TitleInjective(a: SelectedTab, b: SelectedTab)
    requires Title(a) == Title(b)
    ensures a == b
  {
  }
}
