// Movement directions as integer affine translations in homogeneous
// coordinates (x = column, y = row, z = 1).

module MoveDirections {
  import opened Shared

  /** (row delta, column delta, optional speed). */
  datatype MoveDirection = MoveDirection(row: int, col: int, speed: Option<int>)

  const UP: MoveDirection := MoveDirection(-1, 0, Some(1))
  const DOWN: MoveDirection := MoveDirection(1, 0, Some(1))
  const LEFT: MoveDirection := MoveDirection(0, -1, Some(1))
  const RIGHT: MoveDirection := MoveDirection(0, 1, Some(1))

  datatype Vector3 = Vector3(x: int, y: int, z: int)

  /** A 3x3 integer matrix, row-major. */
  datatype Matrix3 = Matrix3(
    m00: int, m01: int, m02: int,
    m10: int, m11: int, m12: int,
    m20: int, m21: int, m22: int)

  function Mul(m: Matrix3, v: Vector3): Vector3 {
    Vector3(
      m.m00 * v.x + m.m01 * v.y + m.m02 * v.z,
      m.m10 * v.x + m.m11 * v.y + m.m12 * v.z,
      m.m20 * v.x + m.m21 * v.y + m.m22 * v.z)
  }

  /** The row offset: the row delta scaled by the speed, if there is one. */
  function Ty(d: MoveDirection): int {
    if d.speed.Some? then d.row * d.speed.value else d.row
  }

  /** The column offset: the column delta scaled by the speed, if there is one. */
  function Tx(d: MoveDirection): int {
    if d.speed.Some? then d.col * d.speed.value else d.col
  }

  /** The translation matrix of a direction: it moves every point (x, y, 1)
      by (Tx, Ty) and keeps it in the z = 1 plane. */
  function Translate(d: MoveDirection): (m: Matrix3)
    ensures m.m20 == 0 && m.m21 == 0 && m.m22 == 1
    ensures forall v: Vector3 {:trigger Mul(m, v)} :: v.z == 1 ==> Mul(m, v) == Vector3(v.x + Tx(d), v.y + Ty(d), 1)
  {
    Matrix3(1, 0, Tx(d), 0, 1, Ty(d), 0, 0, 1)
  }

  /** Each of the four constants moves exactly one step along exactly one axis. */
  lemma UnitSteps()
    ensures Tx(UP) == 0 && Ty(UP) == -1
    ensures Tx(DOWN) == 0 && Ty(DOWN) == 1
    ensures Tx(LEFT) == -1 && Ty(LEFT) == 0
    ensures Tx(RIGHT) == 1 && Ty(RIGHT) == 0
  {
  }

  /** Translations compose by adding their offsets. */
  lemma TranslateCompose(a: MoveDirection, b: MoveDirection, v: Vector3)
    requires v.z == 1
    ensures Mul(Translate(b), Mul(Translate(a), v)) == Vector3(v.x + Tx(a) + Tx(b), v.y + Ty(a) + Ty(b), 1)
  {
  }

  /** Opposite directions cancel out. */
  lemma OppositesCancel(v: Vector3)
    requires v.z == 1
    ensures Mul(Translate(DOWN), Mul(Translate(UP), v)) == v
    ensures Mul(Translate(UP), Mul(Translate(DOWN), v)) == v
    ensures Mul(Translate(RIGHT), Mul(Translate(LEFT), v)) == v
    ensures Mul(Translate(LEFT), Mul(Translate(RIGHT), v)) == v
  {
    TranslateCompose(UP, DOWN, v);
    TranslateCompose(DOWN, UP, v);
    TranslateCompose(LEFT, RIGHT, v);
    TranslateCompose(RIGHT, LEFT, v);
  }
}
