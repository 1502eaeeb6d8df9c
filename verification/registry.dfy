/** The kind registry `TYPE_MAP` with `registerType` and the registrations made when
    the module is imported (subapis/peripheral.py:369, 415-416, 425-450). */
module Registry {

  /** The proxy class a kind string is bound to: the classes of the module, plus any
      class a third party registers. */
  datatype Kind =
    | Base | Drive | Monitor | Computer | Turtle | Printer | Speaker | CommandBlock
    | Workbench | WebDisplay | NBTObserver | Projector3d | Manipulator | Inventory
    | WirelessModem | WiredModem
    | ThirdParty(className: string)

  /** One `registerType(kind, cls)` call. */
  datatype Registration = Registration(kind: string, cls: Kind)

  /** The registry after the given registrations, made in order, starting from `m`. */
  function Apply(m: map<string, Kind>, regs: seq<Registration>): map<string, Kind>
    decreases |regs|
  {
    if regs == [] then m else Apply(m[regs[0].kind := regs[0].cls], regs[1..])
  }

  /** Registering two batches in turn is registering their concatenation. */
  lemma {:induction false} ApplyConcat(m: map<string, Kind>, a: seq<Registration>, b: seq<Registration>)
    ensures Apply(m, a + b) == Apply(Apply(m, a), b)
    decreases |a|
  {
    if a == [] {
      assert a + b == b;
    } else {
      assert (a + b)[0] == a[0];
      assert (a + b)[1..] == a[1..] + b;
      ApplyConcat(m[a[0].kind := a[0].cls], a[1..], b);
    }
  }

  /** The last registration of a kind wins, whatever was registered before it. */
  lemma {:induction false} ApplyLastWins(m: map<string, Kind>, regs: seq<Registration>, i: nat)
    requires i < |regs|
    requires forall j | i < j < |regs| :: regs[j].kind != regs[i].kind
    ensures regs[i].kind in Apply(m, regs)
    ensures Apply(m, regs)[regs[i].kind] == regs[i].cls
    decreases |regs|
  {
    var m' := m[regs[0].kind := regs[0].cls];
    if i == 0 {
      ApplyUntouched(m', regs[1..], regs[0].kind);
    } else {
      ApplyLastWins(m', regs[1..], i - 1);
    }
  }

  /** A kind no registration names keeps what it had (or stays absent). */
  lemma {:induction false} ApplyUntouched(m: map<string, Kind>, regs: seq<Registration>, k: string)
    requires forall j | 0 <= j < |regs| :: regs[j].kind != k
    ensures k in Apply(m, regs) <==> k in m
    ensures k in m ==> Apply(m, regs)[k] == m[k]
    decreases |regs|
  {
    if regs != [] {
      ApplyUntouched(m[regs[0].kind := regs[0].cls], regs[1..], k);
    }
  }

  /** The registry holds exactly the kinds it started with and the kinds registered. */
  lemma {:induction false} ApplyKeys(m: map<string, Kind>, regs: seq<Registration>)
    ensures Apply(m, regs).Keys == m.Keys + set j | 0 <= j < |regs| :: regs[j].kind
    decreases |regs|
  {
    if regs != [] {
      ApplyKeys(m[regs[0].kind := regs[0].cls], regs[1..]);
      var s := set j | 0 <= j < |regs| :: regs[j].kind;
      var t := set j | 0 <= j < |regs[1..]| :: regs[1..][j].kind;
      assert s == {regs[0].kind} + t by {
        forall k | k in s ensures k in {regs[0].kind} + t {
          var j :| 0 <= j < |regs| && regs[j].kind == k;
          if j > 0 { assert regs[1..][j - 1].kind == k; }
        }
      }
    }
  }

  /** The twelve kinds registered one by one at import time, in source order. */
  function ExplicitRegistrations(): seq<Registration>
  {
    [ Registration("drive", Drive),
      Registration("monitor", Monitor),
      Registration("computer", Computer),
      Registration("turtle", Turtle),
      Registration("printer", Printer),
      Registration("speaker", Speaker),
      Registration("command", CommandBlock),
      Registration("workbench", Workbench),
      Registration("webdisplays", WebDisplay),
      Registration("NBT_Observer", NBTObserver),
      Registration("3d_projector", Projector3d),
      Registration("manipulator", Manipulator) ]
  }

  /** The inventory-like block names registered under the `minecraft:` namespace. */
  function InventoryNames(): seq<string>
  {
    [ "chest", "furnace", "barrel", "hopper", "dropper",
      "dispenser", "blast_furnace", "smoker", "shulker_box", "brewing_stand" ]
  }

  function InventoryRegistration(name: string): Registration
  {
    Registration("minecraft:" + name, Inventory)
  }

  /** The registrations of the import-time loop. */
  function InventoryRegistrations(): seq<Registration>
  {
    seq(|InventoryNames()|, i requires 0 <= i < |InventoryNames()| => InventoryRegistration(InventoryNames()[i]))
  }

  /** `TYPE_MAP` once the module has been imported. */
  function InitialTypes(): map<string, Kind>
  {
    Apply(map[], ExplicitRegistrations() + InventoryRegistrations())
  }

  /** The twelve named kinds and their classes, written as a table. */
  function ExplicitTable(): map<string, Kind>
  {
    map[
      "drive" := Drive, "monitor" := Monitor, "computer" := Computer, "turtle" := Turtle,
      "printer" := Printer, "speaker" := Speaker, "command" := CommandBlock,
      "workbench" := Workbench, "webdisplays" := WebDisplay, "NBT_Observer" := NBTObserver,
      "3d_projector" := Projector3d, "manipulator" := Manipulator]
  }

  /** The ten `minecraft:` names, all bound to the inventory class, written as a table. */
  function InventoryTable(): map<string, Kind>
  {
    map[
      "minecraft:chest" := Inventory, "minecraft:furnace" := Inventory,
      "minecraft:barrel" := Inventory, "minecraft:hopper" := Inventory,
      "minecraft:dropper" := Inventory, "minecraft:dispenser" := Inventory,
      "minecraft:blast_furnace" := Inventory, "minecraft:smoker" := Inventory,
      "minecraft:shulker_box" := Inventory, "minecraft:brewing_stand" := Inventory]
  }

  /** The `minecraft:` loop spelled out: each name gets the namespace prefix. */
  lemma InventoryRegistrationsSpelled()
    ensures InventoryRegistrations() ==
      [ Registration("minecraft:chest", Inventory), Registration("minecraft:furnace", Inventory),
        Registration("minecraft:barrel", Inventory), Registration("minecraft:hopper", Inventory),
        Registration("minecraft:dropper", Inventory), Registration("minecraft:dispenser", Inventory),
        Registration("minecraft:blast_furnace", Inventory), Registration("minecraft:smoker", Inventory),
        Registration("minecraft:shulker_box", Inventory), Registration("minecraft:brewing_stand", Inventory) ]
  {
    assert "minecraft:" + "chest" == "minecraft:chest";
    assert "minecraft:" + "furnace" == "minecraft:furnace";
    assert "minecraft:" + "barrel" == "minecraft:barrel";
    assert "minecraft:" + "hopper" == "minecraft:hopper";
    assert "minecraft:" + "dropper" == "minecraft:dropper";
    assert "minecraft:" + "dispenser" == "minecraft:dispenser";
    assert "minecraft:" + "blast_furnace" == "minecraft:blast_furnace";
    assert "minecraft:" + "smoker" == "minecraft:smoker";
    assert "minecraft:" + "shulker_box" == "minecraft:shulker_box";
    assert "minecraft:" + "brewing_stand" == "minecraft:brewing_stand";
  }

  lemma ExplicitRegistrationsApplied()
    ensures Apply(map[], ExplicitRegistrations()) == ExplicitTable()
  {
  }

  lemma InventoryLiteralApplied()
    ensures Apply(ExplicitTable(),
      [ Registration("minecraft:chest", Inventory), Registration("minecraft:furnace", Inventory),
        Registration("minecraft:barrel", Inventory), Registration("minecraft:hopper", Inventory),
        Registration("minecraft:dropper", Inventory), Registration("minecraft:dispenser", Inventory),
        Registration("minecraft:blast_furnace", Inventory), Registration("minecraft:smoker", Inventory),
        Registration("minecraft:shulker_box", Inventory), Registration("minecraft:brewing_stand", Inventory) ])
      == ExplicitTable() + InventoryTable()
  {
  }

  lemma InventoryRegistrationsApplied()
    ensures Apply(ExplicitTable(), InventoryRegistrations()) == ExplicitTable() + InventoryTable()
  {
    InventoryRegistrationsSpelled();
    InventoryLiteralApplied();
  }

  /** The import-time loop starts from the table the twelve explicit registrations build. */
  lemma InitialTypesAfterExplicit()
    ensures InitialTypes() == Apply(ExplicitTable(), InventoryRegistrations())
  {
    ApplyConcat(map[], ExplicitRegistrations(), InventoryRegistrations());
    ExplicitRegistrationsApplied();
  }

  /** After import the registry is exactly the two tables: the twelve named kinds map to
      their classes, the ten `minecraft:` names map to the inventory class, and nothing
      else is registered. */
  lemma InitialTypesTable()
    ensures InitialTypes() == ExplicitTable() + InventoryTable()
  {
    InitialTypesAfterExplicit();
    InventoryRegistrationsApplied();
  }

  /** `modem` is not a registered kind after import: only `wrap`'s special case handles it. */
  lemma ModemNotRegistered()
    ensures "modem" !in InitialTypes()
  {
    InitialTypesTable();
    assert "modem" !in ExplicitTable();
    assert "modem" !in InventoryTable();
  }

  /** The module-level registry; `registerType` updates it in place. */
  class TypeRegistry {
    var types: map<string, Kind>

    /** Module import: the twelve explicit registrations, then the `minecraft:` loop. */
    constructor ()
      ensures types == InitialTypes()
    {
      types := map[];
      new;
      RegisterType("drive", Drive);
      RegisterType("monitor", Monitor);
      RegisterType("computer", Computer);
      RegisterType("turtle", Turtle);
      RegisterType("printer", Printer);
      RegisterType("speaker", Speaker);
      RegisterType("command", CommandBlock);
      RegisterType("workbench", Workbench);
      RegisterType("webdisplays", WebDisplay);
      RegisterType("NBT_Observer", NBTObserver);
      RegisterType("3d_projector", Projector3d);
      RegisterType("manipulator", Manipulator);
      assert types == ExplicitTable();
      var names := InventoryNames();
      for i := 0 to |names|
        invariant types == Apply(ExplicitTable(), InventoryRegistrations()[..i])
      {
        RegisterType("minecraft:" + names[i], Inventory);
        ghost var regs := InventoryRegistrations();
        assert regs[..i + 1] == regs[..i] + [regs[i]];
        ApplyConcat(ExplicitTable(), regs[..i], [regs[i]]);
      }
      assert InventoryRegistrations()[..|names|] == InventoryRegistrations();
      InitialTypesAfterExplicit();
    }

    /** `registerType(kind, cls)`: binds `kind` to `cls`, overwriting any earlier binding,
        and leaves every other kind as it was. */
    method RegisterType(kind: string, cls: Kind)
      modifies this
      ensures types == old(types)[kind := cls]
    {
      types := types[kind := cls];
    }
  }
}
