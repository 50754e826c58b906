/**
 * The persisted settings: defaults, the merge of a stored value over them,
 * partial update, reset, and the VIP and ignore list edits. The browser's
 * synchronised key-value store is modelled as one field holding the value
 * saved under the `settings` key.
 */
module Storage {
  import opened Wrappers
  import opened EmailTypes

  /** `Partial<ExtensionSettings>`: any subset of the settings fields. */
  datatype SettingsPatch = SettingsPatch(
    enabled: Option<bool>,
    autoSort: Option<bool>,
    showScores: Option<bool>,
    showBadges: Option<bool>,
    vipList: Option<seq<string>>,
    ignoreList: Option<seq<string>>,
    customRules: Option<seq<ClassificationRule>>,
    theme: Option<Theme>)

  /** Everything switched on, empty lists, theme following the system. */
  const DefaultSettings: ExtensionSettings :=
    ExtensionSettings(true, true, true, true, [], [], [], Auto)

  /** The patch that changes nothing. */
  const NoUpdates: SettingsPatch := SettingsPatch(None, None, None, None, None, None, None, None)

  /** A complete settings value seen as a patch with every field present. */
  function AsPatch(s: ExtensionSettings): SettingsPatch {
    SettingsPatch(Some(s.enabled), Some(s.autoSort), Some(s.showScores), Some(s.showBadges),
                  Some(s.vipList), Some(s.ignoreList), Some(s.customRules), Some(s.theme))
  }

  function Pick<T>(update: Option<T>, current: T): T {
    match update
    case Some(v) => v
    case None => current
  }

  /** The object spread `{ ...base, ...patch }`: present fields of the patch win. */
  function Overlay(base: ExtensionSettings, patch: SettingsPatch): ExtensionSettings {
    ExtensionSettings(
      Pick(patch.enabled, base.enabled),
      Pick(patch.autoSort, base.autoSort),
      Pick(patch.showScores, base.showScores),
      Pick(patch.showBadges, base.showBadges),
      Pick(patch.vipList, base.vipList),
      Pick(patch.ignoreList, base.ignoreList),
      Pick(patch.customRules, base.customRules),
      Pick(patch.theme, base.theme))
  }

  function PickLater<T>(first: Option<T>, second: Option<T>): Option<T> {
    if second.Some? then second else first
  }

  /** The patch that has the effect of `first` followed by `second`. */
  function Then(first: SettingsPatch, second: SettingsPatch): SettingsPatch {
    SettingsPatch(
      PickLater(first.enabled, second.enabled),
      PickLater(first.autoSort, second.autoSort),
      PickLater(first.showScores, second.showScores),
      PickLater(first.showBadges, second.showBadges),
      PickLater(first.vipList, second.vipList),
      PickLater(first.ignoreList, second.ignoreList),
      PickLater(first.customRules, second.customRules),
      PickLater(first.theme, second.theme))
  }

  /** Each field present in the patch replaces the base field; every absent field keeps the base value. */
  lemma OverlayFieldwise(base: ExtensionSettings, patch: SettingsPatch)
    ensures var r := Overlay(base, patch);
      && (if patch.enabled.Some? then r.enabled == patch.enabled.value else r.enabled == base.enabled)
      && (if patch.autoSort.Some? then r.autoSort == patch.autoSort.value else r.autoSort == base.autoSort)
      && (if patch.showScores.Some? then r.showScores == patch.showScores.value else r.showScores == base.showScores)
      && (if patch.showBadges.Some? then r.showBadges == patch.showBadges.value else r.showBadges == base.showBadges)
      && (if patch.vipList.Some? then r.vipList == patch.vipList.value else r.vipList == base.vipList)
      && (if patch.ignoreList.Some? then r.ignoreList == patch.ignoreList.value else r.ignoreList == base.ignoreList)
      && (if patch.customRules.Some? then r.customRules == patch.customRules.value else r.customRules == base.customRules)
      && (if patch.theme.Some? then r.theme == patch.theme.value else r.theme == base.theme)
  {
  }

  /** Saving a complete value and merging it back over any base gives that value. */
  lemma OverlayAsPatch(base: ExtensionSettings, s: ExtensionSettings)
    ensures Overlay(base, AsPatch(s)) == s
  {
  }

  lemma OverlayNoUpdates(base: ExtensionSettings)
    ensures Overlay(base, NoUpdates) == base
  {
  }

  /** Two successive overlays are one overlay of the combined patch. */
  lemma OverlayThen(base: ExtensionSettings, first: SettingsPatch, second: SettingsPatch)
    ensures Overlay(Overlay(base, first), second) == Overlay(base, Then(first, second))
  {
  }

  /** Applying the same update twice is applying it once. */
  lemma OverlayIdempotent(base: ExtensionSettings, patch: SettingsPatch)
    ensures Overlay(Overlay(base, patch), patch) == Overlay(base, patch)
  {
    OverlayThen(base, patch, patch);
    assert Then(patch, patch) == patch;
  }

  predicate Distinct(list: seq<string>) {
    forall i, j | 0 <= i < j < |list| :: list[i] != list[j]
  }

  /** Appending an address that is not yet present keeps a list free of duplicates. */
  lemma AppendAbsentKeepsDistinct(list: seq<string>, x: string)
    requires Distinct(list) && x !in list
    ensures Distinct(list + [x])
  {
  }

  /** `list.filter(e => e !== x)`: every occurrence of `x` removed. */
  function RemoveAll(list: seq<string>, x: string): (r: seq<string>)
    ensures x !in r
    ensures forall y :: y in r <==> y in list && y != x
    ensures |r| <= |list|
    ensures multiset(r) == multiset(list)[x := 0]
  {
    if |list| == 0 then []
    else
      assert list == [list[0]] + list[1..];
      (if list[0] == x then [] else [list[0]]) + RemoveAll(list[1..], x)
  }

  /** Filtering distributes over concatenation, so the remaining entries keep their order. */
  lemma {:induction false} RemoveAllAppend(a: seq<string>, b: seq<string>, x: string)
    ensures RemoveAll(a + b, x) == RemoveAll(a, x) + RemoveAll(b, x)
  {
    if |a| == 0 {
      assert a + b == b;
    } else {
      assert (a + b)[0] == a[0];
      assert (a + b)[1..] == a[1..] + b;
      RemoveAllAppend(a[1..], b, x);
    }
  }

  /** Removing an address that is not present changes nothing. */
  lemma {:induction false} RemoveAllAbsent(list: seq<string>, x: string)
    requires x !in list
    ensures RemoveAll(list, x) == list
  {
    if |list| > 0 {
      RemoveAllAbsent(list[1..], x);
    }
  }

  /** Removing keeps a duplicate-free list duplicate-free. */
  lemma {:induction false} RemoveAllKeepsDistinct(list: seq<string>, x: string)
    requires Distinct(list)
    ensures Distinct(RemoveAll(list, x))
  {
    if |list| > 0 {
      assert Distinct(list[1..]);
      RemoveAllKeepsDistinct(list[1..], x);
      assert list[0] !in list[1..];
    }
  }

  /** The settings store, holding the value saved under the `settings` key. */
  class SettingsStore {
    var stored: Option<SettingsPatch>

    constructor ()
      ensures stored == None
    {
      stored := None;
    }

    /** What `getSettings` resolves to in the current state. */
    function Current(): ExtensionSettings
      reads this
    {
      match stored
      case None => DefaultSettings
      case Some(p) => Overlay(DefaultSettings, p)
    }

    /** The defaults if nothing is stored, else the stored value merged over them. */
    method GetSettings() returns (settings: ExtensionSettings)
      ensures stored.None? ==> settings == DefaultSettings
      ensures stored.Some? ==> settings == Overlay(DefaultSettings, stored.value)
    {
      if stored.Some? {
        settings := Overlay(DefaultSettings, stored.value);
      } else {
        settings := DefaultSettings;
      }
    }

    /** Stores a complete value; reading it back gives it unchanged. */
    method SaveSettings(settings: ExtensionSettings)
      modifies this
      ensures stored == Some(AsPatch(settings))
      ensures Current() == settings
    {
      stored := Some(AsPatch(settings));
      OverlayAsPatch(DefaultSettings, settings);
    }

    /** Replaces exactly the fields present in `updates`, saves and returns the result. */
    method UpdateSettings(updates: SettingsPatch) returns (newSettings: ExtensionSettings)
      modifies this
      ensures newSettings == Overlay(old(Current()), updates)
      ensures stored == Some(AsPatch(newSettings))
      ensures Current() == newSettings
    {
      var currentSettings := GetSettings();
      newSettings := Overlay(currentSettings, updates);
      SaveSettings(newSettings);
    }

    /** Saves and returns the defaults. */
    method ResetSettings() returns (settings: ExtensionSettings)
      modifies this
      ensures settings == DefaultSettings
      ensures settings.vipList == [] && settings.ignoreList == [] && settings.customRules == []
      ensures stored == Some(AsPatch(DefaultSettings))
      ensures Current() == DefaultSettings
    {
      SaveSettings(DefaultSettings);
      settings := DefaultSettings;
    }

    /** Appends the address to the VIP list unless it is already there; only then saves. */
    method AddToVipList(email: string) returns (settings: ExtensionSettings)
      modifies this
      ensures email in old(Current()).vipList ==> settings == old(Current()) && stored == old(stored)
      ensures email !in old(Current()).vipList ==>
                && settings == old(Current()).(vipList := old(Current()).vipList + [email])
                && stored == Some(AsPatch(settings))
      ensures Current() == settings
      ensures email in settings.vipList
      ensures Distinct(old(Current()).vipList) ==> Distinct(settings.vipList)
    {
      settings := GetSettings();
      if email !in settings.vipList {
        if Distinct(settings.vipList) {
          AppendAbsentKeepsDistinct(settings.vipList, email);
        }
        settings := settings.(vipList := settings.vipList + [email]);
        SaveSettings(settings);
      }
    }

    /** Removes every occurrence of the address from the VIP list and saves. */
    method RemoveFromVipList(email: string) returns (settings: ExtensionSettings)
      modifies this
      ensures settings == old(Current()).(vipList := RemoveAll(old(Current()).vipList, email))
      ensures stored == Some(AsPatch(settings))
      ensures Current() == settings
    {
      settings := GetSettings();
      settings := settings.(vipList := RemoveAll(settings.vipList, email));
      SaveSettings(settings);
    }

    /** Appends the address to the ignore list unless it is already there; only then saves. */
    method AddToIgnoreList(email: string) returns (settings: ExtensionSettings)
      modifies this
      ensures email in old(Current()).ignoreList ==> settings == old(Current()) && stored == old(stored)
      ensures email !in old(Current()).ignoreList ==>
                && settings == old(Current()).(ignoreList := old(Current()).ignoreList + [email])
                && stored == Some(AsPatch(settings))
      ensures Current() == settings
      ensures email in settings.ignoreList
      ensures Distinct(old(Current()).ignoreList) ==> Distinct(settings.ignoreList)
    {
      settings := GetSettings();
      if email !in settings.ignoreList {
        if Distinct(settings.ignoreList) {
          AppendAbsentKeepsDistinct(settings.ignoreList, email);
        }
        settings := settings.(ignoreList := settings.ignoreList + [email]);
        SaveSettings(settings);
      }
    }

    /** Removes every occurrence of the address from the ignore list and saves. */
    method RemoveFromIgnoreList(email: string) returns (settings: ExtensionSettings)
      modifies this
      ensures settings == old(Current()).(ignoreList := RemoveAll(old(Current()).ignoreList, email))
      ensures stored == Some(AsPatch(settings))
      ensures Current() == settings
    {
      settings := GetSettings();
      settings := settings.(ignoreList := RemoveAll(settings.ignoreList, email));
      SaveSettings(settings);
    }
  }

  /**
   * With the defaults held as an immutable value, a reset after adding a
   * first VIP address gives back empty lists.
   */
  method ResetAfterFirstVipAdd(email: string) returns (settings: ExtensionSettings)
    ensures settings == DefaultSettings
    ensures settings.vipList == []
  {
    var store := new SettingsStore();
    var added := store.AddToVipList(email);
    assert added.vipList == [email];
    settings := store.ResetSettings();
  }
}
