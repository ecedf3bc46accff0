/**
 * The heads-up display (src/scenes/UI.ts): the row of heart sprites, the
 * frames `updateLife` gives them, and the width of the stamina bar.
 */
module UIScene {
  const FULL_HEART := 530
  const HALF_HEART := 531
  const EMPTY_HEART := 532
  const MAX_HEARTS := 3
  const MAX_STAMINA := 100
  const HEART_LEFT := 20
  const HEART_SPACING := 32
  const HEART_TOP := 50

  /** A sprite's frame: the texture's base frame, or a numbered frame of the sheet. */
  datatype Frame = BaseFrame | Tile(index: int)

  datatype Heart = Heart(x: int, y: int, frame: Frame)

  class Hud {
    var hearts: array<Heart>
    var maxHearts: nat
    var maxStamina: int
    /** The stamina bar's display width. */
    var staminaWidth: int

    constructor ()
      ensures hearts.Length == 0 && maxHearts == MAX_HEARTS && maxStamina == MAX_STAMINA
    {
      hearts := new Heart[0];
      maxHearts := MAX_HEARTS;
      maxStamina := MAX_STAMINA;
      staminaWidth := 0;
    }

    /**
     * Replace the hearts with exactly maxHearts new sprites, one every 32
     * pixels from x = 52 on the line y = 50, each with the base frame.
     */
    method CreateHearts()
      modifies this`hearts
      ensures fresh(hearts) && hearts.Length == maxHearts
      ensures forall i :: 0 <= i < hearts.Length ==>
        hearts[i] == Heart(HEART_LEFT + HEART_SPACING * (i + 1), HEART_TOP, BaseFrame)
    {
      var row := new Heart[maxHearts];
      for i := 0 to maxHearts
        invariant forall j :: 0 <= j < i ==>
          row[j] == Heart(HEART_LEFT + HEART_SPACING * (j + 1), HEART_TOP, BaseFrame)
      {
        row[i] := Heart(HEART_LEFT + HEART_SPACING * (i + 1), HEART_TOP, BaseFrame);
      }
      hearts := row;
    }

    /**
     * Show `life` hearts, as written. For 1 <= life <= hearts.Length the
     * first life hearts are full and the rest empty. For life <= 0 the
     * running maximum stays maxHearts, so only hearts past maxHearts are
     * emptied: with one heart per maxHearts no frame changes at all. A life
     * above hearts.Length fills every heart and then fails on the missing
     * sprite (`ok` is false).
     */
    method UpdateLife(life: int) returns (ok: bool)
      modifies hearts
      ensures ok <==> life <= hearts.Length
      ensures forall i :: 0 <= i < hearts.Length ==> hearts[i].x == old(hearts[i].x) && hearts[i].y == old(hearts[i].y)
      ensures 1 <= life <= hearts.Length ==> forall i :: 0 <= i < hearts.Length ==>
        hearts[i].frame == Tile(if i < life then FULL_HEART else EMPTY_HEART)
      ensures life <= 0 ==> forall i :: 0 <= i < hearts.Length ==>
        hearts[i] == if i <= maxHearts then old(hearts[i]) else old(hearts[i]).(frame := Tile(EMPTY_HEART))
      ensures life > hearts.Length ==> forall i :: 0 <= i < hearts.Length ==> hearts[i].frame == Tile(FULL_HEART)
    {
      var maxH: int := maxHearts;
      var i := 0;
      while i < life
        invariant 0 <= i <= hearts.Length
        invariant i == 0 || i <= life
        invariant maxH == if i == 0 then maxHearts else i - 1
        invariant forall j :: 0 <= j < hearts.Length ==>
          hearts[j] == if j < i then old(hearts[j]).(frame := Tile(FULL_HEART)) else old(hearts[j])
      {
        if i == hearts.Length {
          return false;  // hearts[i] is undefined: setFrame throws
        }
        hearts[i] := hearts[i].(frame := Tile(FULL_HEART));
        maxH := i;
        i := i + 1;
      }

      ghost var filled := hearts[..];
      i := maxH + 1;
      while i < hearts.Length
        invariant maxH + 1 <= i
        invariant i <= hearts.Length || i == maxH + 1
        invariant forall j :: 0 <= j < hearts.Length ==>
          hearts[j] == if maxH + 1 <= j < i then filled[j].(frame := Tile(EMPTY_HEART)) else filled[j]
      {
        hearts[i] := hearts[i].(frame := Tile(EMPTY_HEART));
        i := i + 1;
      }
      ok := true;
    }

    /**
     * Show `life` hearts as evidently intended: the emptying loop starts
     * right after the filled ones, so for 0 <= life <= hearts.Length the
     * first life hearts are full and all others empty, life 0 included.
     */
    method ShowLife(life: int) returns (ok: bool)
      modifies hearts
      ensures ok <==> life <= hearts.Length
      ensures forall i :: 0 <= i < hearts.Length ==> hearts[i].x == old(hearts[i].x) && hearts[i].y == old(hearts[i].y)
      ensures ok ==> forall i :: 0 <= i < hearts.Length ==>
        hearts[i].frame == Tile(if i < life then FULL_HEART else EMPTY_HEART)
      ensures !ok ==> forall i :: 0 <= i < hearts.Length ==> hearts[i].frame == Tile(FULL_HEART)
    {
      var maxH: int := -1;
      var i := 0;
      while i < life
        invariant 0 <= i <= hearts.Length
        invariant i == 0 || i <= life
        invariant maxH == i - 1
        invariant forall j :: 0 <= j < hearts.Length ==>
          hearts[j] == if j < i then old(hearts[j]).(frame := Tile(FULL_HEART)) else old(hearts[j])
      {
        if i == hearts.Length {
          return false;
        }
        hearts[i] := hearts[i].(frame := Tile(FULL_HEART));
        maxH := i;
        i := i + 1;
      }

      ghost var filled := hearts[..];
      i := maxH + 1;
      while i < hearts.Length
        invariant maxH + 1 <= i <= hearts.Length
        invariant forall j :: 0 <= j < hearts.Length ==>
          hearts[j] == if maxH + 1 <= j < i then filled[j].(frame := Tile(EMPTY_HEART)) else filled[j]
      {
        hearts[i] := hearts[i].(frame := Tile(EMPTY_HEART));
        i := i + 1;
      }
      ok := true;
    }

    /** The bar starts at twice the maximum stamina: 200. */
    method CreateStaminaBar()
      modifies this`staminaWidth
      ensures staminaWidth == 2 * maxStamina
    {
      staminaWidth := maxStamina * 2;
    }

    /** The bar is always twice as wide as the stamina it shows. */
    method UpdateStamina(stamina: int)
      modifies this`staminaWidth
      ensures staminaWidth == 2 * stamina
    {
      staminaWidth := stamina * 2;
    }

    /** Scene start: hearts built, bar at full width, and every heart full. */
    method Create()
      requires maxHearts == MAX_HEARTS && maxStamina == MAX_STAMINA
      modifies this`hearts, this`staminaWidth
      ensures fresh(hearts) && hearts.Length == MAX_HEARTS
      ensures forall i :: 0 <= i < hearts.Length ==>
        hearts[i] == Heart(HEART_LEFT + HEART_SPACING * (i + 1), HEART_TOP, Tile(FULL_HEART))
      ensures staminaWidth == 2 * MAX_STAMINA
    {
      CreateHearts();
      CreateStaminaBar();
      var ok := UpdateLife(maxHearts);
    }
  }

  /**
   * After life 1 and then life 0, the first heart is still shown full:
   * the as-written fill shows a heart that the player no longer has.
   */
  method StaleHeartAtZero() returns (first: Frame)
    ensures first == Tile(FULL_HEART)
  {
    var hud := new Hud();
    hud.CreateHearts();
    var ok := hud.UpdateLife(1);
    ok := hud.UpdateLife(0);
    first := hud.hearts[0].frame;
  }

  /** The corrected fill shows every heart empty at life 0. */
  method NoHeartAtZero() returns (first: Frame)
    ensures first == Tile(EMPTY_HEART)
  {
    var hud := new Hud();
    hud.CreateHearts();
    var ok := hud.ShowLife(1);
    ok := hud.ShowLife(0);
    first := hud.hearts[0].frame;
  }
}
