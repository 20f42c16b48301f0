/** Reading the order of the address fields from its configuration string
    (runtime/DRAMsim3/src/configuration.cc:355-404). */
module MappingSetup {
  import opened Common
  import opened AddressMap
  import opened Options

  function FieldOf(token: string): Option<Field> {
    if token == "ch" then Some(Ch)
    else if token == "ra" then Some(Ra)
    else if token == "bg" then Some(Bg)
    else if token == "ba" then Some(Ba)
    else if token == "ro" then Some(Ro)
    else if token == "co" then Some(Co)
    else None
  }

  /** Two letters for each field. */
  function NameOf(f: Field): (s: string)
    ensures |s| == 2 && FieldOf(s) == Some(f)
  {
    match f
    case Ch => "ch" case Ra => "ra" case Bg => "bg"
    case Ba => "ba" case Ro => "ro" case Co => "co"
  }

  function Spell(order: seq<Field>): (s: string)
    ensures |s| == 2 * |order|
  {
    if order == [] then "" else NameOf(order[0]) + Spell(order[1..])
  }

  lemma {:induction false} SpellAt(order: seq<Field>, i: nat)
    requires i < |order|
    ensures Spell(order)[2 * i..2 * i + 2] == NameOf(order[i])
  {
    var name, rest := NameOf(order[0]), Spell(order[1..]);
    assert Spell(order) == name + rest;
    hide Spell, NameOf, FieldOf;
    if i > 0 {
      SpellAt(order[1..], i - 1);
      Shifted(name, rest, i);
    }
  }

  lemma Shifted(name: string, rest: string, i: nat)
    requires |name| == 2 && 0 < i && 2 * i <= |rest|
    ensures (name + rest)[2 * i..2 * i + 2] == rest[2 * (i - 1)..2 * (i - 1) + 2]
  {
  }

  lemma NameBack(token: string)
    ensures FieldOf(token).Some? ==> NameOf(FieldOf(token).value) == token
  {
  }

  lemma SpellOne(a: seq<Field>, b: seq<Field>)
    requires Spell(a) == Spell(b)
    ensures a == b
  {
    forall i | 0 <= i < |a| ensures a[i] == b[i] {
      SpellAt(a, i);
      SpellAt(b, i);
      assert FieldOf(NameOf(a[i])) == FieldOf(NameOf(b[i]));
    }
  }

  /** Sum of the widths of the fields; negative widths count as the source counts them. */
  function WidthSum(cfg: Config, order: seq<Field>): int {
    if order == [] then 0 else Width(cfg, order[0]) + WidthSum(cfg, order[1..])
  }

  /** Bits below field `f`: the widths of all fields named after it. */
  function Offset(cfg: Config, order: seq<Field>, f: Field): int {
    if order == [] then 0 else if order[0] == f then WidthSum(cfg, order[1..]) else Offset(cfg, order[1..], f)
  }

  /** With rows at least as long as a burst the offsets are the positions of the address map. */
  lemma {:induction false} OffsetIsPos(cfg: Config, order: seq<Field>, f: Field)
    requires Log2(cfg.BL) <= Log2(cfg.columns)
    ensures WidthSum(cfg, order) == TotalWidth(cfg, order) && Offset(cfg, order, f) == Pos(cfg, order, f)
  {
    if order != [] { OffsetIsPos(cfg, order[1..], f); }
  }

  lemma Unspelled(text: string, i: nat, order: seq<Field>)
    requires 2 * i + 2 <= |text| && FieldOf(text[2 * i..2 * i + 2]).None?
    ensures text != Spell(order)
  {
    if text == Spell(order) { SpellAt(order, i); }
  }

  /** Text whose every token names a field spells those fields. */
  lemma {:induction false} Spelled(text: string, order: seq<Field>)
    requires |text| == 2 * |order| && forall i :: 0 <= i < |order| ==> FieldOf(text[2 * i..2 * i + 2]) == Some(order[i])
    ensures text == Spell(order)
  {
    if order != [] {
      forall i | 0 <= i < |order[1..]| ensures FieldOf(text[2..][2 * i..2 * i + 2]) == Some(order[1..][i]) {
        assert text[2..][2 * i..2 * i + 2] == text[2 * (i + 1)..2 * (i + 1) + 2];
      }
      Spelled(text[2..], order[1..]);
      assert FieldOf(text[2 * 0..2 * 0 + 2]) == Some(order[0]);
      NameBack(text[..2]);
      assert text == text[..2] + text[2..];
    }
  }

  method Tokens(text: string) returns (tokens: seq<string>)
    requires |text| == 12
    ensures |tokens| == 6 && forall i :: 0 <= i < 6 ==> tokens[i] == text[2 * i..2 * i + 2]
  {
    tokens := [];
    while |tokens| < 6
      invariant |tokens| <= 6
      invariant forall i :: 0 <= i < |tokens| ==> tokens[i] == text[2 * i..2 * i + 2]
    {
      tokens := tokens + [text[2 * |tokens|..2 * |tokens| + 2]];
    }
  }

  /** The positions, set from the last token to the first; None at a token that names no field. */
  method FieldPositions(cfg: Config, all: seq<string>) returns (r: Option<map<Field, int>>, ghost order: seq<Field>)
    ensures r.None? ==> exists i :: 0 <= i < |all| && FieldOf(all[i]).None?
    ensures r.Some? ==> |order| == |all| && forall i :: 0 <= i < |all| ==> FieldOf(all[i]) == Some(order[i])
    ensures r.Some? ==> forall f :: f in r.value <==> f in order
    ensures r.Some? ==> forall f :: f in order ==> r.value[f] == Offset(cfg, order, f)
  {
    hide FieldOf, Width;
    order := [];
    var tokens := all;
    var fieldPos: map<Field, int> := map[];
    var pos := 0;
    while tokens != []
      invariant |tokens| + |order| == |all| && tokens == all[..|tokens|]
      invariant forall i :: |tokens| <= i < |all| ==> FieldOf(all[i]) == Some(order[i - |tokens|])
      invariant pos == WidthSum(cfg, order)
      invariant forall f :: f in fieldPos <==> f in order
      invariant forall f :: f in order ==> fieldPos[f] == Offset(cfg, order, f)
      decreases |tokens|
    {
      var token := tokens[|tokens| - 1];
      tokens := tokens[..|tokens| - 1];
      var field := FieldOf(token);
      if field.None? {
        return None, order;
      }
      fieldPos := fieldPos[field.value := pos];
      pos := pos + Width(cfg, field.value);
      ghost var shorter := order;
      order := [field.value] + order;
      assert order[1..] == shorter;
    }
    return Some(fieldPos), order;
  }

  /** SetAddressMapping. The answer is None where the source exits or throws: exactly when the text
      does not spell the six fields, each once, in some order. */
  method SetAddressMapping(cfg: Config, text: string) returns (r: Option<map<Field, int>>)
    ensures r.Some? <==> exists order :: AllFields(order) && text == Spell(order)
    ensures forall order, f :: r.Some? && AllFields(order) && text == Spell(order) && f in order ==>
              f in r.value && r.value[f] == Offset(cfg, order, f)
  {
    if |text| != 12 {
      return None;
    }
    var tokens := Tokens(text);
    var positions;
    ghost var order;
    positions, order := FieldPositions(cfg, tokens);
    if positions.None? {
      ghost var i :| 0 <= i < |tokens| && FieldOf(tokens[i]).None?;
      forall o { Unspelled(text, i, o); }
      return None;
    }
    Spelled(text, order);
    forall o | text == Spell(o) ensures o == order { SpellOne(o, order); }
    var m := positions.value;
    if Ch in m && Ra in m && Bg in m && Ba in m && Ro in m && Co in m {
      forall f: Field ensures f in order {
        match f { case Ch => case Ra => case Bg => case Ba => case Ro => case Co => }
      }
      return Some(m);
    }
    return None;
  }
}
