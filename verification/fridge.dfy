/**
 * The fridge page: the expiry-status classifier, the status display table,
 * and the two ways of adding an item (quick add by name, custom entry),
 * both of which put the new item in front of the list.
 */
module Fridge {
  import opened Wrappers
  import opened Strings

  /** The three statuses an item can have. */
  datatype Status = Fresh | ExpiringSoon | Expired
  {
    /** The status text the item stores and the display table is keyed by. */
    function Key(): string
    {
      match this
      case Fresh => "Fresh"
      case ExpiringSoon => "Expiring Soon"
      case Expired => "Expired"
    }

    /** How pressing the status is: Fresh 0, Expiring Soon 1, Expired 2. */
    function Urgency(): nat
    {
      match this
      case Fresh => 0
      case ExpiringSoon => 1
      case Expired => 2
    }
  }

  /** One entry of statusInfo: the CSS class, the icon and the text shown for a status. */
  datatype StatusStyle = StatusStyle(cssClass: string, icon: string, text: string)

  /** statusInfo, keyed by status text. */
  const StatusInfo: map<string, StatusStyle> := map[
    "Fresh" := StatusStyle("status-fresh", "\U{2705}", "Fresh"),
    "Expiring Soon" := StatusStyle("status-expiring", "\U{26A0}\U{FE0F}", "Expiring Soon"),
    "Expired" := StatusStyle("status-expired", "\U{26D4}", "Expired")
  ]

  /** Every status has an entry in the display table, and that entry shows the status's own text. */
  lemma StatusInfoCoversStatuses(s: Status)
    ensures s.Key() in StatusInfo
    ensures StatusInfo[s.Key()].text == s.Key()
  {
  }

  /** Different statuses are stored as different texts. */
  lemma StatusKeyInjective(s: Status, t: Status)
    requires s.Key() == t.Key()
    ensures s == t
  {
  }

  /**
   * The status of a custom entry, from the whole-day difference between the
   * expiry date and now (absent when no expiry date was entered): no date
   * is Fresh; a date in the past is Expired; up to three days ahead is
   * Expiring Soon; later is Fresh.
   */
  function Classify(diffDays: Option<int>): (s: Status)
    ensures s == Expired <==> diffDays.Some? && diffDays.value < 0
    ensures s == ExpiringSoon <==> diffDays.Some? && 0 <= diffDays.value <= 3
    ensures s == Fresh <==> diffDays.None? || diffDays.value > 3
  {
    if diffDays.None? then Fresh
    else if diffDays.value < 0 then Expired
    else if diffDays.value <= 3 then ExpiringSoon
    else Fresh
  }

  /** The later the expiry date, the less urgent the status. */
  lemma ClassifyMonotonic(d1: int, d2: int)
    requires d1 <= d2
    ensures Classify(Some(d1)).Urgency() >= Classify(Some(d2)).Urgency()
  {
  }

  /** expiredDays: how many days ago an expired item expired, and 0 for any other item. */
  function ExpiredDays(diffDays: Option<int>): (n: int)
    ensures n >= 0
    ensures n > 0 <==> Classify(diffDays) == Expired
    ensures Classify(diffDays) == Expired ==> n + diffDays.value == 0
  {
    if Classify(diffDays) == Expired then
      var d := diffDays.value;
      if d < 0 then -d else d
    else 0
  }

  datatype Item = Item(
    name: string,
    quantity: string,
    category: string,
    location: string,
    expiry: string,
    status: Status,
    icon: string,
    expiredDays: int)

  /** The item quick add creates from a name. */
  function QuickItem(name: string): (it: Item)
    ensures it.name == name && it.status == Fresh && it.expiredDays == 0
    ensures it.location == "Main Fridge" && it.quantity == "" && it.category == "" && it.expiry == ""
  {
    Item(name, "", "", "Main Fridge", "", Fresh, "\U{1F9FE}", 0)
  }

  /**
   * The item a custom entry creates: trimmed name, quantity and category,
   * the chosen location, the formatted expiry date (empty without a date),
   * and the status and expiredDays from the day difference.
   */
  function CustomItem(name: string, quantity: string, category: string, location: string,
                      expiry: string, diffDays: int, formattedExpiry: string): (it: Item)
    ensures it.name == Trim(name) && it.quantity == Trim(quantity) && it.category == Trim(category)
    ensures it.location == location
    ensures expiry == "" ==> it.expiry == "" && it.status == Fresh && it.expiredDays == 0
    ensures expiry != "" ==> it.expiry == formattedExpiry && it.status == Classify(Some(diffDays))
    ensures it.expiredDays > 0 <==> it.status == Expired
  {
    var diff := if expiry == "" then None else Some(diffDays);
    Item(Trim(name), Trim(quantity), Trim(category), location,
         if expiry == "" then "" else formattedExpiry,
         Classify(diff), "", ExpiredDays(diff))
  }

  /** What every added item satisfies: a real name, and expiredDays positive exactly for expired items. */
  predicate WellFormed(it: Item)
  {
    it.name != [] && IsTrimmed(it.name) && it.expiredDays >= 0 && (it.expiredDays > 0 <==> it.status == Expired)
  }

  /** Quick add produces a well-formed item from a name that is not blank. */
  lemma QuickItemWellFormed(name: string)
    requires !IsBlank(name)
    ensures WellFormed(QuickItem(Trim(name)))
  {
  }

  /** Custom entry produces a well-formed item from a name that is not blank, whatever the dates. */
  lemma CustomItemWellFormed(name: string, quantity: string, category: string, location: string,
                             expiry: string, diffDays: int, formattedExpiry: string)
    requires !IsBlank(name)
    ensures WellFormed(CustomItem(name, quantity, category, location, expiry, diffDays, formattedExpiry))
  {
  }

  /** initialIngredients. */
  const InitialIngredients: seq<Item> := [
    Item("Chicken Breast", "500g", "Meat", "Main Fridge", "Dec 28, 2024", ExpiringSoon, "\U{1F357}", 286),
    Item("Fresh Milk", "1L", "Dairy", "Main Fridge", "Dec 25, 2024", Expired, "\U{1F95B}", 290),
    Item("Broccoli", "300g", "Vegetables", "Crisper Drawer", "Jan 5, 2025", Fresh, "\U{1F966}", 0),
    Item("Eggs", "12 pcs", "Dairy", "Main Fridge", "Jan 10, 2025", Fresh, "\U{1F95A}", 0),
    Item("Tomatoes", "6 pcs", "Vegetables", "Main Fridge", "Jan 2, 2025", ExpiringSoon, "\U{1F345}", 0),
    Item("Butter", "200g", "Dairy", "Main Fridge", "Jan 20, 2025", Fresh, "\U{1F9C8}", 0)
  ]

  /** The seeded list does not follow the rule added items follow: Chicken Breast is Expiring Soon with 286 expired days. */
  lemma InitialIngredientsNotWellFormed()
    ensures !WellFormed(InitialIngredients[0])
  {
  }

  datatype Tab = Quick | Custom

  /** The state of the fridge page: the item list and the add form. */
  class FridgeManager {
    var items: seq<Item>
    var isModalOpen: bool
    var activeTab: Tab
    var quickName: string
    var name: string
    var quantity: string
    var category: string
    var location: string
    var expiry: string
    /** How many items at the front of the list were added on this page. */
    ghost var added: nat
    /** The list the page started with. */
    ghost var seeded: seq<Item>

    /** The list is the added items, each well-formed, in front of the seeded ones; no item has negative expiredDays. */
    ghost predicate Valid()
      reads this`items, this`added, this`seeded
    {
      && added <= |items|
      && items[added..] == seeded
      && (forall i :: 0 <= i < added ==> WellFormed(items[i]))
      && (forall i :: 0 <= i < |items| ==> items[i].expiredDays >= 0)
    }

    constructor ()
      ensures Valid() && seeded == InitialIngredients
      ensures items == InitialIngredients && !isModalOpen && activeTab == Quick
      ensures quickName == "" && name == "" && quantity == "" && category == ""
      ensures location == "Main Fridge" && expiry == ""
    {
      items := InitialIngredients;
      isModalOpen := false;
      activeTab := Quick;
      quickName, name, quantity, category := "", "", "", "";
      location, expiry := "Main Fridge", "";
      added := 0;
      seeded := InitialIngredients;
    }

    /** openModal: choose the tab, open the modal and reset every form field. */
    method OpenModal(tab: Tab)
      requires Valid()
      modifies this
      ensures Valid()
      ensures items == old(items) && added == old(added)
      ensures activeTab == tab && isModalOpen
      ensures quickName == "" && name == "" && quantity == "" && category == ""
      ensures location == "Main Fridge" && expiry == ""
    {
      activeTab := tab;
      isModalOpen := true;
      quickName, name, quantity, category := "", "", "", "";
      location, expiry := "Main Fridge", "";
    }

    /**
     * handleAddQuick: a blank name raises an alert and changes nothing;
     * otherwise the quick item for the trimmed name goes in front of the
     * list and the modal closes.
     */
    method AddQuick() returns (alert: Option<string>)
      requires Valid()
      modifies this`items, this`isModalOpen, this`added
      ensures Valid()
      ensures IsBlank(old(quickName)) ==> alert == Some("Enter item name") && items == old(items) && isModalOpen == old(isModalOpen)
      ensures !IsBlank(old(quickName)) ==> alert == None && items == [QuickItem(Trim(old(quickName)))] + old(items) && !isModalOpen
    {
      if IsBlank(quickName) {
        return Some("Enter item name");
      }
      var item := QuickItem(Trim(quickName));
      QuickItemWellFormed(quickName);
      Commit(item);
      alert := None;
    }

    /**
     * handleAddCustom: a blank name raises an alert and changes nothing;
     * otherwise the custom item built from the form (status and expiredDays
     * from `diffDays`, the whole days from now to the entered expiry date)
     * goes in front of the list and the modal closes.
     */
    method AddCustom(diffDays: int, formattedExpiry: string) returns (alert: Option<string>)
      requires Valid()
      modifies this`items, this`isModalOpen, this`added
      ensures Valid()
      ensures IsBlank(old(name)) ==> alert == Some("Ingredient name required") && items == old(items) && isModalOpen == old(isModalOpen)
      ensures !IsBlank(old(name)) ==>
        && alert == None && !isModalOpen
        && items == [CustomItem(old(name), old(quantity), old(category), old(location), old(expiry), diffDays, formattedExpiry)] + old(items)
    {
      if IsBlank(name) {
        alert := Some("Ingredient name required");
      } else {
        var item := CustomItem(name, quantity, category, location, expiry, diffDays, formattedExpiry);
        CustomItemWellFormed(name, quantity, category, location, expiry, diffDays, formattedExpiry);
        Commit(item);
        alert := None;
      }
    }

    /** Both add handlers end alike: `setItems(s => [newItem, ...s])` and the modal closes. */
    method Commit(item: Item)
      requires Valid() && WellFormed(item)
      modifies this`items, this`isModalOpen, this`added
      ensures Valid()
      ensures items == [item] + old(items) && !isModalOpen
    {
      assert ([item] + items)[added + 1..] == items[added..];
      items := [item] + items;
      added := added + 1;
      isModalOpen := false;
    }
  }
}
