/**
 * The settings store with the object sharing of the extension's code kept: the default
 * settings are one mutable object, handed out by reference when nothing is
 * stored, and a merged value shares the defaults' list arrays for every list
 * field the stored value lacks. A push onto such a list changes the defaults.
 */
module StorageAsWritten {
  import opened Wrappers
  import opened EmailTypes
  import opened Storage

  class SharedDefaultsStore {
    var stored: Option<SettingsPatch>
    /** The current contents of the default object's VIP list array. */
    var defaultVipList: seq<string>
    /** The current contents of the default object's ignore list array. */
    var defaultIgnoreList: seq<string>

    constructor ()
      ensures stored == None && defaultVipList == [] && defaultIgnoreList == []
    {
      stored := None;
      defaultVipList := [];
      defaultIgnoreList := [];
    }

    /** The default object as it now is. */
    function Defaults(): ExtensionSettings
      reads this
    {
      DefaultSettings.(vipList := defaultVipList, ignoreList := defaultIgnoreList)
    }

    /** What `getSettings` resolves to. */
    function Current(): ExtensionSettings
      reads this
    {
      match stored
      case None => Defaults()
      case Some(p) => Overlay(Defaults(), p)
    }

    /** The VIP list `getSettings` hands out is the default object's own array. */
    predicate VipListShared()
      reads this
    {
      stored.None? || stored.value.vipList.None?
    }

    predicate IgnoreListShared()
      reads this
    {
      stored.None? || stored.value.ignoreList.None?
    }

    /** As the extension's code does it: the push lands in the default object when its list is the one handed out. */
    method AddToVipList(email: string) returns (settings: ExtensionSettings)
      modifies this
      ensures email in old(Current()).vipList ==>
                settings == old(Current()) && stored == old(stored) && defaultVipList == old(defaultVipList)
      ensures email !in old(Current()).vipList ==>
                && settings == old(Current()).(vipList := old(Current()).vipList + [email])
                && stored == Some(AsPatch(settings))
                && defaultVipList == if old(VipListShared()) then old(defaultVipList) + [email] else old(defaultVipList)
      ensures defaultIgnoreList == old(defaultIgnoreList)
    {
      settings := Current();
      if email !in settings.vipList {
        var shared := VipListShared();
        settings := settings.(vipList := settings.vipList + [email]);
        if shared {
          defaultVipList := defaultVipList + [email];
        }
        stored := Some(AsPatch(settings));
      }
    }

    method AddToIgnoreList(email: string) returns (settings: ExtensionSettings)
      modifies this
      ensures email in old(Current()).ignoreList ==>
                settings == old(Current()) && stored == old(stored) && defaultIgnoreList == old(defaultIgnoreList)
      ensures email !in old(Current()).ignoreList ==>
                && settings == old(Current()).(ignoreList := old(Current()).ignoreList + [email])
                && stored == Some(AsPatch(settings))
                && defaultIgnoreList == if old(IgnoreListShared()) then old(defaultIgnoreList) + [email] else old(defaultIgnoreList)
      ensures defaultVipList == old(defaultVipList)
    {
      settings := Current();
      if email !in settings.ignoreList {
        var shared := IgnoreListShared();
        settings := settings.(ignoreList := settings.ignoreList + [email]);
        if shared {
          defaultIgnoreList := defaultIgnoreList + [email];
        }
        stored := Some(AsPatch(settings));
      }
    }

    /**
     * The filtered list is assigned to the object `getSettings` handed out,
     * which is the default object itself when nothing is stored.
     */
    method RemoveFromVipList(email: string) returns (settings: ExtensionSettings)
      modifies this
      ensures settings == old(Current()).(vipList := RemoveAll(old(Current()).vipList, email))
      ensures stored == Some(AsPatch(settings))
      ensures defaultVipList == if old(stored).None? then RemoveAll(old(defaultVipList), email) else old(defaultVipList)
      ensures defaultIgnoreList == old(defaultIgnoreList)
    {
      settings := Current();
      settings := settings.(vipList := RemoveAll(settings.vipList, email));
      if stored.None? {
        defaultVipList := settings.vipList;
      }
      stored := Some(AsPatch(settings));
    }

    method RemoveFromIgnoreList(email: string) returns (settings: ExtensionSettings)
      modifies this
      ensures settings == old(Current()).(ignoreList := RemoveAll(old(Current()).ignoreList, email))
      ensures stored == Some(AsPatch(settings))
      ensures defaultIgnoreList == if old(stored).None? then RemoveAll(old(defaultIgnoreList), email) else old(defaultIgnoreList)
      ensures defaultVipList == old(defaultVipList)
    {
      settings := Current();
      settings := settings.(ignoreList := RemoveAll(settings.ignoreList, email));
      if stored.None? {
        defaultIgnoreList := settings.ignoreList;
      }
      stored := Some(AsPatch(settings));
    }

    /** Saves and returns the default object as it now is. */
    method ResetSettings() returns (settings: ExtensionSettings)
      modifies this
      ensures settings == old(Defaults())
      ensures stored == Some(AsPatch(settings))
      ensures defaultVipList == old(defaultVipList) && defaultIgnoreList == old(defaultIgnoreList)
    {
      settings := Defaults();
      stored := Some(AsPatch(settings));
    }
  }

  /**
   * On a fresh store, adding a first VIP address and then resetting gives back
   * a VIP list holding that address instead of the empty default list.
   */
  method ResetAfterFirstVipAddKeepsAddress(email: string) returns (settings: ExtensionSettings)
    ensures settings.vipList == [email]
    ensures settings != DefaultSettings
  {
    var store := new SharedDefaultsStore();
    var added := store.AddToVipList(email);
    settings := store.ResetSettings();
  }
}
