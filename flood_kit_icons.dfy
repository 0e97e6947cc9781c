/** The keyword classifier that picks the icon of a flood-kit item from its title (`getIconForFloodKitItem`). */
module FloodKitIcons {
  import opened Text

  datatype Icon = Package | DoorOpen | Wind | Bath | Droplets | Plug | Shield

  /** The icon for `title`, matched on its lower-cased form; the first matching rule wins. */
  function IconForFloodKitItem(title: string): (r: Icon)
  {
    var t := ToLower(title);
    if Contains(t, "door") || Contains(t, "seal") then DoorOpen
    else if Contains(t, "air brick") || Contains(t, "airbrick") then Wind
    else if Contains(t, "toilet") || Contains(t, "bath") then Bath
    else if Contains(t, "plumbing") || Contains(t, "pipe") then Droplets
    else if Contains(t, "utility") || Contains(t, "connection") then Plug
    else if Contains(t, "sandbag") || Contains(t, "sand") then Shield
    else Package
  }

  /** Matching ignores case: a title and its lower-cased form get the same icon. */
  lemma CaseInsensitive(title: string)
    ensures IconForFloodKitItem(title) == IconForFloodKitItem(ToLower(title))
  {
    ToLowerIdempotent(title);
  }

  /**
   * Each icon stands for one rule, taken in order: the icon is chosen exactly when
   * its keywords occur in the lower-cased title and no earlier rule's keywords do.
   */
  lemma RulesInOrder(title: string)
    ensures var t := ToLower(title);
      var door := Contains(t, "door") || Contains(t, "seal");
      var air := Contains(t, "air brick") || Contains(t, "airbrick");
      var bath := Contains(t, "toilet") || Contains(t, "bath");
      var pipe := Contains(t, "plumbing") || Contains(t, "pipe");
      var plug := Contains(t, "utility") || Contains(t, "connection");
      var sand := Contains(t, "sand");
      && (IconForFloodKitItem(title) == DoorOpen <==> door)
      && (IconForFloodKitItem(title) == Wind <==> !door && air)
      && (IconForFloodKitItem(title) == Bath <==> !door && !air && bath)
      && (IconForFloodKitItem(title) == Droplets <==> !door && !air && !bath && pipe)
      && (IconForFloodKitItem(title) == Plug <==> !door && !air && !bath && !pipe && plug)
      && (IconForFloodKitItem(title) == Shield <==> !door && !air && !bath && !pipe && !plug && sand)
      && (IconForFloodKitItem(title) == Package <==> !door && !air && !bath && !pipe && !plug && !sand)
  {
    var t := ToLower(title);
    if Contains(t, "sandbag") {
      assert Contains("sandbag", "sand") by { assert "sand" <= "sandbag"; }
      ContainsWithin(t, "sandbag", "sand");
    }
  }

  /** Precedence: a title naming both a door and sand gets the door icon. */
  lemma DoorBeatsSand(title: string)
    requires Contains(ToLower(title), "door") && Contains(ToLower(title), "sand")
    ensures IconForFloodKitItem(title) == DoorOpen
  {
  }

  /** A concrete title: "Door Sandbag Kit" is classified by its first rule. */
  lemma DoorSandbagExample()
    ensures IconForFloodKitItem("Door Sandbag Kit") == DoorOpen
  {
    var t := ToLower("Door Sandbag Kit");
    assert t[..4] == "door";
    assert Contains(t, "door") by { assert "door" <= t; }
  }
}
