// Keyboard input mapped to the model transform, once per frame.
//
// The transform fields are single-precision floats in the program; here they
// are real numbers, so the properties stated are the ones that do not depend
// on rounding: which field a key moves, in which direction, and that nothing
// else changes.

module Input {

  /** The eleven keys the program polls; every other key is Other. */
  datatype Key = Escape | W | S | A | D | R | F | Q | E | Z | C | Other(code: int)

  datatype Vec3 = Vec3(x: real, y: real, z: real)

  /** The transform state: translation, scale factor and the two rotation angles (degrees). */
  datatype Transform = Transform(translation: Vec3, scaleFactor: real, rotationAngleZ: real, rotationAngleY: real)

  /** The per-frame steps: translation and scale move by 0.01, angles by 30 degrees. */
  const MoveStep: real := 0.01
  const ScaleStep: real := 0.01
  const RotateStep: real := 30.0

  /** Initial state: no translation, no rotation, scale 6. */
  const Initial: Transform := Transform(Vec3(0.0, 0.0, 0.0), 6.0, 0.0, 0.0)

  /** The five fields that keys move. */
  datatype Field = TranslationX | TranslationY | Scale | AngleZ | AngleY

  function Get(t: Transform, f: Field): (v: real) {
    match f
    case TranslationX => t.translation.x
    case TranslationY => t.translation.y
    case Scale => t.scaleFactor
    case AngleZ => t.rotationAngleZ
    case AngleY => t.rotationAngleY
  }

  /** The key that raises a field. */
  function UpKey(f: Field): (k: Key) {
    match f
    case TranslationX => D
    case TranslationY => W
    case Scale => R
    case AngleZ => Q
    case AngleY => Z
  }

  /** The key that lowers a field. */
  function DownKey(f: Field): (k: Key) {
    match f
    case TranslationX => A
    case TranslationY => S
    case Scale => F
    case AngleZ => E
    case AngleY => C
  }

  /** How field f went from before to after, given whether its raise and lower keys were held. */
  predicate Moved(before: Transform, after: Transform, f: Field, up: bool, down: bool) {
    (up && !down ==> Get(after, f) > Get(before, f)) &&
    (down && !up ==> Get(after, f) < Get(before, f)) &&
    (!up && !down ==> Get(after, f) == Get(before, f))
  }

  /** Adds delta to v when the key is held. */
  function Bump(v: real, held: bool, delta: real): (r: real) {
    if held then v + delta else v
  }

  /**
   * The transform after one frame with the given keys held, each field
   * updated in the order the program tests the keys.
   */
  function Step(t: Transform, pressed: set<Key>): (r: Transform)
    ensures r.translation.z == t.translation.z
    ensures forall f: Field :: Moved(t, r, f, UpKey(f) in pressed, DownKey(f) in pressed)
  {
    var y := Bump(Bump(t.translation.y, W in pressed, MoveStep), S in pressed, -MoveStep);
    var x := Bump(Bump(t.translation.x, A in pressed, -MoveStep), D in pressed, MoveStep);
    var scale := Bump(Bump(t.scaleFactor, R in pressed, ScaleStep), F in pressed, -ScaleStep);
    var angleZ := Bump(Bump(t.rotationAngleZ, Q in pressed, RotateStep), E in pressed, -RotateStep);
    var angleY := Bump(Bump(t.rotationAngleY, Z in pressed, RotateStep), C in pressed, -RotateStep);
    Transform(Vec3(x, y, t.translation.z), scale, angleZ, angleY)
  }

  // ---------------------------------------------------------------------------
  // Properties of one frame's update

  /** Holding only the raise key of f raises f, with no bound, and leaves every other field alone. */
  lemma UpKeyMovesOnlyItsField(t: Transform, f: Field)
    ensures Get(Step(t, {UpKey(f)}), f) > Get(t, f)
    ensures forall g :: g != f ==> Get(Step(t, {UpKey(f)}), g) == Get(t, g)
    ensures Step(t, {UpKey(f)}).translation.z == t.translation.z
  {
    var r := Step(t, {UpKey(f)});
    assert Moved(t, r, f, true, false);
    forall g | g != f ensures Get(r, g) == Get(t, g) {
      assert Moved(t, r, g, false, false);
    }
  }

  /** Holding only the lower key of f lowers f, with no bound, and leaves every other field alone. */
  lemma DownKeyMovesOnlyItsField(t: Transform, f: Field)
    ensures Get(Step(t, {DownKey(f)}), f) < Get(t, f)
    ensures forall g :: g != f ==> Get(Step(t, {DownKey(f)}), g) == Get(t, g)
    ensures Step(t, {DownKey(f)}).translation.z == t.translation.z
  {
    var r := Step(t, {DownKey(f)});
    assert Moved(t, r, f, false, true);
    forall g | g != f ensures Get(r, g) == Get(t, g) {
      assert Moved(t, r, g, false, false);
    }
  }

  /** Escape and unrecognised keys leave the transform as it is. */
  lemma OtherKeysKeepTransform(t: Transform, pressed: set<Key>)
    requires forall k :: k in pressed ==> k == Escape || k.Other?
    ensures Step(t, pressed) == t
  {
    var r := Step(t, pressed);
    forall f: Field ensures Get(r, f) == Get(t, f) {
      assert UpKey(f) !in pressed && DownKey(f) !in pressed;
      assert Moved(t, r, f, false, false);
    }
  }

  /** Each field's new value depends only on its own two keys: the axes do not interact. */
  lemma FieldsIndependent(t: Transform, pressed: set<Key>, f: Field)
    ensures Get(Step(t, pressed), f) == Get(Step(t, pressed * {UpKey(f), DownKey(f)}), f)
  {
  }

  // ---------------------------------------------------------------------------
  // The mutable state the frame loop updates

  /** The window's close flag, set by the program and read by the frame loop. */
  class Window {
    var shouldClose: bool

    constructor ()
      ensures !shouldClose
    {
      shouldClose := false;
    }
  }

  /** The process-wide transform values. */
  class TransformState {
    var translation: Vec3
    var rotationAngleZ: real
    var rotationAngleY: real
    var scaleFactor: real

    function Current(): (t: Transform)
      reads this
    {
      Transform(translation, scaleFactor, rotationAngleZ, rotationAngleY)
    }

    constructor ()
      ensures Current() == Initial
    {
      translation := Vec3(0.0, 0.0, 0.0);
      rotationAngleZ := 0.0;
      rotationAngleY := 0.0;
      scaleFactor := 6.0;
    }

    /**
     * One frame of input: Escape sets the close flag; each of the other ten
     * keys, when held, moves its field by its fixed step.
     */
    method ProcessInput(window: Window, pressed: set<Key>)
      modifies this, window
      ensures Current() == Step(old(Current()), pressed)
      ensures window.shouldClose == (old(window.shouldClose) || Escape in pressed)
    {
      if Escape in pressed {
        window.shouldClose := true;
      }
      MoveByKeys(pressed);
      ScaleByKeys(pressed);
      RotateZByKeys(pressed);
      RotateYByKeys(pressed);
    }

    /** W and S move the model up and down, A and D left and right. */
    method MoveByKeys(pressed: set<Key>)
      modifies this`translation
      ensures translation == Step(old(Current()), pressed).translation
    {
      var d := MoveStep;
      if W in pressed {
        translation := translation.(y := translation.y + d);
      }
      if S in pressed {
        translation := translation.(y := translation.y - d);
      }
      if A in pressed {
        translation := translation.(x := translation.x - d);
      }
      if D in pressed {
        translation := translation.(x := translation.x + d);
      }
    }

    /** R scales up and F scales down. */
    method ScaleByKeys(pressed: set<Key>)
      modifies this`scaleFactor
      ensures scaleFactor == Step(old(Current()), pressed).scaleFactor
    {
      var s := ScaleStep;
      if R in pressed {
        scaleFactor := scaleFactor + s;
      }
      if F in pressed {
        scaleFactor := scaleFactor - s;
      }
    }

    /** Q turns counterclockwise and E clockwise about the Z axis. */
    method RotateZByKeys(pressed: set<Key>)
      modifies this`rotationAngleZ
      ensures rotationAngleZ == Step(old(Current()), pressed).rotationAngleZ
    {
      if Q in pressed {
        rotationAngleZ := rotationAngleZ + RotateStep;
      }
      if E in pressed {
        rotationAngleZ := rotationAngleZ - RotateStep;
      }
    }

    /** Z turns counterclockwise and C clockwise about the Y axis. */
    method RotateYByKeys(pressed: set<Key>)
      modifies this`rotationAngleY
      ensures rotationAngleY == Step(old(Current()), pressed).rotationAngleY
    {
      if Z in pressed {
        rotationAngleY := rotationAngleY + RotateStep;
      }
      if C in pressed {
        rotationAngleY := rotationAngleY - RotateStep;
      }
    }
  }
}
