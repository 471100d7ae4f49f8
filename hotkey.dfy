/*
 * Keyboard hotkeys for presets (src/hotkey/mod.rs): keys and modifier sets
 * are stored as strings ("F1", ["Ctrl", "Shift"]), described as
 * "Ctrl+Shift+F1", and matched against key events by their modifier flags.
 */
module Hotkey {
  import opened Common

  /** A key event's key: a named key (by its debug name), a character, or unidentified. */
  datatype Key = Named(name: string) | Character(text: string) | Unidentified

  datatype Modifiers = Modifiers(control: bool, alt: bool, shift: bool, logo: bool)

  datatype HotkeyMapping = HotkeyMapping(
    key: string,
    modifiers: seq<string>,
    presetName: string,
    description: string)

  /** serialize_key: unidentified keys have no stored form. */
  function SerializeKey(k: Key): (r: Option<string>)
    ensures r.None? <==> k.Unidentified?
  {
    match k
    case Named(name) => Some(name)
    case Character(text) => Some(text)
    case Unidentified => None
  }

  /** serialize_modifiers: the names of the held modifiers, always in the order Ctrl, Alt, Shift, Super. */
  function SerializeModifiers(m: Modifiers): (names: seq<string>)
    ensures forall i :: 0 <= i < |names| ==> names[i] in {"Ctrl", "Alt", "Shift", "Super"}
  {
    (if m.control then ["Ctrl"] else [])
      + (if m.alt then ["Alt"] else [])
      + (if m.shift then ["Shift"] else [])
      + (if m.logo then ["Super"] else [])
  }

  /** The modifier set a list of names denotes: a flag is set when its name occurs, other names are ignored. */
  function ModifiersNamed(mods: seq<string>): Modifiers {
    Modifiers("Ctrl" in mods, "Alt" in mods, "Shift" in mods, "Super" in mods)
  }

  /** deserialize_modifiers: OR together the flag of every recognised name. */
  method DeserializeModifiers(mods: seq<string>) returns (r: Modifiers)
    ensures r == ModifiersNamed(mods)
    ensures mods == [] ==> r == Modifiers(false, false, false, false)
  {
    r := Modifiers(false, false, false, false);
    var i := 0;
    while i < |mods|
      invariant 0 <= i <= |mods|
      invariant r == ModifiersNamed(mods[..i])
    {
      assert mods[..i + 1] == mods[..i] + [mods[i]];
      match mods[i] {
        case "Ctrl" => r := r.(control := true);
        case "Alt" => r := r.(alt := true);
        case "Shift" => r := r.(shift := true);
        case "Super" => r := r.(logo := true);
        case _ =>
      }
      i := i + 1;
    }
    assert mods[..i] == mods;
  }

  /** Storing a modifier set and reading it back gives the same set. */
  lemma ModifiersRoundTrip(m: Modifiers)
    ensures ModifiersNamed(SerializeModifiers(m)) == m
  {
  }

  /** Reading names and storing them again gives the canonical list of the recognised ones. */
  lemma SerializeIsCanonical(mods: seq<string>)
    ensures forall s :: s in SerializeModifiers(ModifiersNamed(mods)) <==> s in mods && s in {"Ctrl", "Alt", "Shift", "Super"}
  {
  }

  /** The position of a modifier name in the stored order. */
  function Rank(name: string): nat {
    if name == "Ctrl" then 0 else if name == "Alt" then 1 else if name == "Shift" then 2 else 3
  }

  /** The stored names come in the order Ctrl, Alt, Shift, Super, each at most once. */
  lemma SerializeModifiersOrdered(m: Modifiers)
    ensures var s := SerializeModifiers(m);
      |s| <= 4 && forall i, j :: 0 <= i < j < |s| ==> Rank(s[i]) < Rank(s[j])
  {
  }

  /** `parts.join("+")`. */
  function Join(parts: seq<string>): string
    requires |parts| >= 1
  {
    if |parts| == 1 then parts[0] else parts[0] + "+" + Join(parts[1..])
  }

  /** format_description: the key alone, or the modifiers joined by '+' and then '+key'. */
  function FormatDescription(modifiers: seq<string>, key: string): (d: string)
    ensures d == Join(modifiers + [key])
  {
    if modifiers == [] then key
    else
      JoinAppend(modifiers, key);
      Join(modifiers) + "+" + key
  }

  lemma {:induction false} JoinAppend(parts: seq<string>, last: string)
    requires |parts| >= 1
    ensures Join(parts + [last]) == Join(parts) + "+" + last
    decreases |parts|
  {
    if |parts| > 1 {
      assert (parts + [last])[1..] == parts[1..] + [last];
      JoinAppend(parts[1..], last);
    }
  }

  /** Splits a string at every '+'. */
  function Split(s: string): (parts: seq<string>)
    ensures |parts| >= 1
    decreases |s|
  {
    if '+' !in s then [s]
    else
      var i := FirstPlus(s);
      [s[..i]] + Split(s[i + 1..])
  }

  function FirstPlus(s: string): (i: nat)
    requires '+' in s
    ensures i < |s| && s[i] == '+' && '+' !in s[..i]
  {
    if s[0] == '+' then 0 else
      assert s == [s[0]] + s[1..];
      var j := FirstPlus(s[1..]);
      assert s[..j + 1] == [s[0]] + s[1..][..j];
      j + 1
  }

  predicate NoPlus(parts: seq<string>) {
    forall i :: 0 <= i < |parts| ==> '+' !in parts[i]
  }

  /** A '+'-free head followed by '+' splits off as the first part. */
  lemma SplitHead(p: string, rest: string)
    requires '+' !in p
    ensures Split(p + "+" + rest) == [p] + Split(rest)
  {
    var s := p + "+" + rest;
    assert s[|p|] == '+';
    assert s[..|p|] == p;
    assert FirstPlus(s) == |p|;
    assert s[|p| + 1..] == rest;
  }

  /** Splitting a join of '+'-free parts recovers the parts. */
  lemma {:induction false} SplitJoin(parts: seq<string>)
    requires |parts| >= 1 && NoPlus(parts)
    ensures Split(Join(parts)) == parts
    decreases |parts|
  {
    if |parts| > 1 {
      SplitHead(parts[0], Join(parts[1..]));
      SplitJoin(parts[1..]);
      assert parts == [parts[0]] + parts[1..];
    } else {
      assert Join(parts) == parts[0];
    }
  }

  /**
   * A description can be read back into its modifiers and key, provided
   * neither the key nor any modifier contains '+' (the '+' key itself cannot
   * be told apart from the separator).
   */
  lemma DescriptionRoundTrip(modifiers: seq<string>, key: string)
    requires NoPlus(modifiers) && '+' !in key
    ensures Split(FormatDescription(modifiers, key)) == modifiers + [key]
  {
    var parts := modifiers + [key];
    assert forall i :: 0 <= i < |parts| ==> parts[i] == if i < |modifiers| then modifiers[i] else key;
    SplitJoin(parts);
  }

  /** HotkeyMapping::new: the description is derived from the modifiers and key. */
  function NewMapping(key: string, modifiers: seq<string>, presetName: string): (m: HotkeyMapping)
    ensures m.key == key && m.modifiers == modifiers && m.presetName == presetName
    ensures m.description == Join(modifiers + [key])
  {
    HotkeyMapping(key, modifiers, presetName, FormatDescription(modifiers, key))
  }

  /** matches: same stored key, and the same four modifier flags as the stored names denote. */
  predicate Matches(m: HotkeyMapping, k: Key, mods: Modifiers) {
    match SerializeKey(k)
    case None => false
    case Some(s) => s == m.key && mods == ModifiersNamed(m.modifiers)
  }

  /**
   * A mapping made from a captured key press matches exactly the key events
   * with the same stored key and the same modifier flags.
   */
  lemma CapturedMappingMatches(k: Key, mods: Modifiers, preset: string, k2: Key, mods2: Modifiers)
    requires SerializeKey(k).Some?
    ensures var m := NewMapping(SerializeKey(k).value, SerializeModifiers(mods), preset);
      Matches(m, k2, mods2) <==> SerializeKey(k2) == SerializeKey(k) && mods2 == mods
  {
    ModifiersRoundTrip(mods);
  }

  /** is_uncapturable_key: modifier keys and the keys the dialog itself uses. */
  predicate IsUncapturableKey(k: Key) {
    k.Named? && k.name in {"Shift", "Control", "Alt", "Super", "Meta", "Escape", "Tab", "Enter", "Space"}
  }

  /** Pressing a modifier alone is never taken as a binding; character keys always can be. */
  lemma ModifierKeysUncapturable(k: Key)
    ensures k.Named? && k.name in {"Shift", "Control", "Alt", "Super"} ==> IsUncapturableKey(k)
    ensures k.Character? ==> !IsUncapturableKey(k)
  {
  }
}
