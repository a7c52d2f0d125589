/**
 * The two prompt builders of the server: the overlay prompt (keep the
 * plan's geometry, repaint its materials) and the per-room photorealistic
 * prompt. Both are total: an id the catalog cannot resolve degrades to a
 * fixed phrase instead of an error.
 */
module Prompts {
  import opened Wrappers
  import opened JsText
  import opened Catalog

  /** The `textures` object of a request; an absent field is None, and `{}` is the default. */
  datatype Textures = Textures(wall: Option<string>, floor: Option<string>, doors: Option<string>, fabric: Option<string>)

  const NoTextures := Textures(None, None, None, None)

  /** A room of the visualize request: its name, its `type`, and optional per-room wall/floor ids. */
  datatype Room = Room(name: Option<string>, kind: Option<string>, wallTex: Option<string>, floorTex: Option<string>)

  const OverlayPreamble := "Top-down interior plan MATERIAL OVERLAY ONLY. Keep geometry 100% identical: walls, doors, windows unchanged; do not move or redraw."
  const OverlayConstraints := "No new objects. No text or logos. Keep same resolution."
  const RoomConstraints := "Respect implied door/window positions. No extra walls, no text."

  // ---------------------------------------------------------------- overlay prompt

  /**
   * The inner `get` of the overlay builder: a resolved material renders as
   * `<id> (repeat <scale> m)`, anything else as "as uploaded". It is never
   * empty.
   */
  function OverlayDescribe(catalog: Catalog, id: Option<string>): (r: string)
    ensures r != ""
    ensures catalog.None? || id.None? ==> r == "as uploaded"
    ensures catalog.Some? && id.Some? && (forall i :: 0 <= i < |catalog.value| ==> catalog.value[i].id != id.value) ==>
              r == "as uploaded"
    ensures forall i: nat :: catalog.Some? && id.Some? && FirstWithId(catalog.value, id.value, i) ==>
              r == id.value + " (repeat " + catalog.value[i].scale + " m)"
  {
    LookupFirst(catalog, id);
    match Lookup(catalog, id)
    case Some(m) => m.id + " (repeat " + m.scale + " m)"
    case None => "as uploaded"
  }

  /**
   * The middle clause of the overlay prompt. The `|| 'keep original'`
   * fallbacks for doors and fabrics can never fire, because the inner
   * lookup never yields an empty string: all four surfaces render the same way.
   */
  function OverlayClause(tex: Textures, catalog: Catalog): (r: string)
    ensures r == "Walls: " + OverlayDescribe(catalog, tex.wall) + "; Floor: " + OverlayDescribe(catalog, tex.floor)
                 + "; Doors: " + OverlayDescribe(catalog, tex.doors) + "; Fabrics: " + OverlayDescribe(catalog, tex.fabric) + "."
  {
    "Walls: " + OverlayDescribe(catalog, tex.wall)
    + "; Floor: " + OverlayDescribe(catalog, tex.floor)
    + "; Doors: " + StrOr(OverlayDescribe(catalog, tex.doors), "keep original")
    + "; Fabrics: " + StrOr(OverlayDescribe(catalog, tex.fabric), "keep original") + "."
  }

  /** `makeOverlayPrompt`: exactly the preamble, the materials clause and the constraints, joined by single spaces. */
  function MakeOverlayPrompt(tex: Textures, catalog: Catalog): (r: string)
    ensures r == OverlayPreamble + " " + OverlayClause(tex, catalog) + " " + OverlayConstraints
  {
    var parts := [OverlayPreamble, OverlayClause(tex, catalog), OverlayConstraints];
    JoinThree(parts, " ");
    Join(parts, " ")
  }

  // ---------------------------------------------------------------- room prompt

  /** The inner `want` of the room builder: `<id> at scale <scale> m`, or "neutral". */
  function RoomDescribe(catalog: Catalog, id: Option<string>): (r: string)
    ensures r != ""
    ensures catalog.None? || id.None? ==> r == "neutral"
    ensures catalog.Some? && id.Some? && (forall i :: 0 <= i < |catalog.value| ==> catalog.value[i].id != id.value) ==>
              r == "neutral"
    ensures forall i: nat :: catalog.Some? && id.Some? && FirstWithId(catalog.value, id.value, i) ==>
              r == id.value + " at scale " + catalog.value[i].scale + " m"
  {
    LookupFirst(catalog, id);
    match Lookup(catalog, id)
    case Some(m) => m.id + " at scale " + m.scale + " m"
    case None => "neutral"
  }

  /** `room.type || 'room'`. */
  function RoomKind(room: Room): (r: string)
    ensures r != ""
    ensures Truthy(room.kind) ==> r == room.kind.value
    ensures !Truthy(room.kind) ==> r == "room"
  {
    Or(room.kind, Some("room")).value
  }

  /** The wall id a room is rendered with: its own `wallTex` when truthy, else the global wall. */
  function RoomWallId(room: Room, tex: Textures): Option<string>
  {
    Or(room.wallTex, tex.wall)
  }

  /** The floor id a room is rendered with: its own `floorTex` when truthy, else the global floor. */
  function RoomFloorId(room: Room, tex: Textures): Option<string>
  {
    Or(room.floorTex, tex.floor)
  }

  /** The opening sentence of the room prompt, naming the room type. */
  function RoomOpening(room: Room): string
  {
    "Photorealistic interior perspective of a " + RoomKind(room) + " based on plan (do not change layout)."
  }

  /** The finishes clause of the room prompt. */
  function RoomFinishes(room: Room, tex: Textures, catalog: Catalog): string
  {
    "Finishes: walls -> " + RoomDescribe(catalog, RoomWallId(room, tex))
    + ", floor -> " + RoomDescribe(catalog, RoomFloorId(room, tex)) + "."
  }

  /** `makeRoomPrompt`: the opening, the finishes clause and the constraints, joined by single spaces. */
  function MakeRoomPrompt(room: Room, tex: Textures, catalog: Catalog): (r: string)
    ensures r == RoomOpening(room) + " " + RoomFinishes(room, tex, catalog) + " " + RoomConstraints
  {
    var parts := [RoomOpening(room), RoomFinishes(room, tex, catalog), RoomConstraints];
    JoinThree(parts, " ");
    Join(parts, " ")
  }

  lemma JoinThree(parts: seq<string>, sep: string)
    requires |parts| == 3
    ensures Join(parts, sep) == parts[0] + sep + parts[1] + sep + parts[2]
  {
    JoinCons(parts[1], parts[2..], sep);
    JoinCons(parts[0], parts[1..], sep);
    assert parts == [parts[0]] + parts[1..];
    assert parts[1..] == [parts[1]] + parts[2..];
  }

  /**
   * A truthy per-room wall id makes the global wall id irrelevant, and a
   * falsy one (undefined or "") counts as no override at all.
   */
  lemma RoomWallPrecedence(room: Room, tex: Textures, other: Textures, catalog: Catalog)
    requires tex.floor == other.floor
    ensures Truthy(room.wallTex) ==> MakeRoomPrompt(room, tex, catalog) == MakeRoomPrompt(room, other, catalog)
    ensures !Truthy(room.wallTex) ==> MakeRoomPrompt(room, tex, catalog) == MakeRoomPrompt(room.(wallTex := None), tex, catalog)
  {
    if Truthy(room.wallTex) {
      assert RoomWallId(room, tex) == RoomWallId(room, other);
    } else {
      assert RoomWallId(room, tex) == RoomWallId(room.(wallTex := None), tex);
    }
  }

  /** The same precedence for the floor. */
  lemma RoomFloorPrecedence(room: Room, tex: Textures, other: Textures, catalog: Catalog)
    requires tex.wall == other.wall
    ensures Truthy(room.floorTex) ==> MakeRoomPrompt(room, tex, catalog) == MakeRoomPrompt(room, other, catalog)
    ensures !Truthy(room.floorTex) ==> MakeRoomPrompt(room, tex, catalog) == MakeRoomPrompt(room.(floorTex := None), tex, catalog)
  {
    if Truthy(room.floorTex) {
      assert RoomFloorId(room, tex) == RoomFloorId(room, other);
    } else {
      assert RoomFloorId(room, tex) == RoomFloorId(room.(floorTex := None), tex);
    }
  }

  /**
   * A one-material catalog: material `wall_marble_dark_green`
   * with scale 0.6 renders in the walls clause as
   * `wall_marble_dark_green (repeat 0.6 m)`; the unset surfaces read "as uploaded".
   */
  lemma OverlayClauseExample(albedo: string)
    ensures var catalog := Some([Material("wall_marble_dark_green", albedo, "0.6")]);
            OverlayClause(NoTextures.(wall := Some("wall_marble_dark_green")), catalog)
            == "Walls: " + "wall_marble_dark_green (repeat 0.6 m)" + "; Floor: " + "as uploaded"
               + "; Doors: " + "as uploaded" + "; Fabrics: " + "as uploaded" + "."
  {
    var ms := [Material("wall_marble_dark_green", albedo, "0.6")];
    var catalog := Some(ms);
    assert FirstWithId(ms, "wall_marble_dark_green", 0);
    assert OverlayDescribe(catalog, Some("wall_marble_dark_green")) == "wall_marble_dark_green (repeat 0.6 m)";
    assert OverlayDescribe(catalog, None) == "as uploaded";
  }
}
