/** The crop rectangle (`CropperPosition`) shared by the photo dialog and the
    avatar component, and the six discrete adjustment commands of the dialog. */
module CropRect {

  /** Corner form of a crop: top-left `(x1, y1)` and bottom-right `(x2, y2)`.
      Nothing in the components keeps `x1 <= x2` or `y1 <= y2`. */
  datatype CropperPosition = CropperPosition(x1: real, y1: real, x2: real, y2: real)

  /** The saliency cropper's suggestion (`topCrop`): origin and size. */
  datatype TopCrop = TopCrop(x: real, y: real, width: real, height: real)

  function Width(c: CropperPosition): real { c.x2 - c.x1 }

  function Height(c: CropperPosition): real { c.y2 - c.y1 }

  /** The rectangle moved by `(dx, dy)`: both corners move, the size does not change. */
  function Shifted(c: CropperPosition, dx: real, dy: real): (r: CropperPosition)
    ensures r.x1 - c.x1 == dx && r.y1 - c.y1 == dy
    ensures Width(r) == Width(c) && Height(r) == Height(c)
  {
    CropperPosition(c.x1 + dx, c.y1 + dy, c.x2 + dx, c.y2 + dy)
  }

  /** The corner rectangle spanned by an origin and a size. */
  function Corners(t: TopCrop): (r: CropperPosition)
    ensures r.x1 == t.x && r.y1 == t.y
    ensures Width(r) == t.width && Height(r) == t.height
  {
    CropperPosition(t.x, t.y, t.x + t.width, t.y + t.height)
  }

  /** The origin-and-size form of a corner rectangle. */
  function Extent(c: CropperPosition): TopCrop
  {
    TopCrop(c.x1, c.y1, Width(c), Height(c))
  }

  /** The two forms describe the same rectangles. */
  lemma CornersExtentInverse(t: TopCrop, c: CropperPosition)
    ensures Extent(Corners(t)) == t
    ensures Corners(Extent(c)) == c
  {
  }

  /** Distance moved by one translation command. */
  const Step: real := 10.0
  /** Factor applied to the bottom-right corner by `zoomIn`. */
  const ZoomInFactor: real := 1.05
  /** Factor applied to the bottom-right corner by `zoomOut`. */
  const ZoomOutFactor: real := 0.95

  /** The dialog's adjustment commands, named as its methods are. */
  datatype Command = UpX | DownX | UpY | DownY | ZoomIn | ZoomOut
  {
    predicate IsTranslation() { !ZoomIn? && !ZoomOut? }
  }

  /** Horizontal displacement of the top-left corner caused by a command. */
  function Dx(cmd: Command): real
  {
    match cmd
    case UpX => Step
    case DownX => -Step
    case _ => 0.0
  }

  /** Vertical displacement of the top-left corner caused by a command. */
  function Dy(cmd: Command): real
  {
    match cmd
    case UpY => Step
    case DownY => -Step
    case _ => 0.0
  }

  /** Scale factor of the bottom-right corner caused by a zoom command. */
  function Factor(cmd: Command): real
    requires !cmd.IsTranslation()
  {
    if cmd == ZoomIn then ZoomInFactor else ZoomOutFactor
  }

  /** The rectangle that replaces `c` when `cmd` runs. */
  function Apply(cmd: Command, c: CropperPosition): (r: CropperPosition)
    // the top-left corner moves by the command's displacement only
    ensures r.x1 == c.x1 + Dx(cmd) && r.y1 == c.y1 + Dy(cmd)
    // a translation moves exactly one axis, by Step, and keeps the size
    ensures cmd.IsTranslation() ==> r == Shifted(c, Dx(cmd), Dy(cmd))
    ensures cmd.IsTranslation() ==> (Dx(cmd) == 0.0) != (Dy(cmd) == 0.0)
    ensures cmd.IsTranslation() ==> Dx(cmd) * Dx(cmd) + Dy(cmd) * Dy(cmd) == Step * Step
    // a zoom anchors the top-left corner and scales the bottom-right one
    ensures !cmd.IsTranslation() ==>
      r.x1 == c.x1 && r.y1 == c.y1 && r.x2 == c.x2 * Factor(cmd) && r.y2 == c.y2 * Factor(cmd)
  {
    match cmd
    case DownX => CropperPosition(c.x1 - 10.0, c.y1, c.x2 - 10.0, c.y2)
    case UpX => CropperPosition(c.x1 + 10.0, c.y1, c.x2 + 10.0, c.y2)
    case DownY => CropperPosition(c.x1, c.y1 - 10.0, c.x2, c.y2 - 10.0)
    case UpY => CropperPosition(c.x1, c.y1 + 10.0, c.x2, c.y2 + 10.0)
    case ZoomIn => CropperPosition(c.x1, c.y1, c.x2 * 1.05, c.y2 * 1.05)
    case ZoomOut => CropperPosition(c.x1, c.y1, c.x2 * 0.95, c.y2 * 0.95)
  }

  /** The translation in the opposite direction. */
  function Opposite(cmd: Command): (r: Command)
    requires cmd.IsTranslation()
    ensures r.IsTranslation() && Dx(r) == -Dx(cmd) && Dy(r) == -Dy(cmd)
  {
    match cmd
    case UpX => DownX
    case DownX => UpX
    case UpY => DownY
    case DownY => UpY
  }

  /** A translation followed by its opposite restores the rectangle. */
  lemma OppositeCancels(cmd: Command, c: CropperPosition)
    requires cmd.IsTranslation()
    ensures Apply(Opposite(cmd), Apply(cmd, c)) == c
  {
  }

  /** Zooming in and out, in either order, is not the identity: the
      bottom-right corner drifts by the factor 1.05 * 0.95 = 0.9975, and the
      rectangle comes back unchanged only when that corner is at the origin. */
  lemma ZoomInOutDrift(c: CropperPosition)
    ensures Apply(ZoomOut, Apply(ZoomIn, c)) == CropperPosition(c.x1, c.y1, c.x2 * 0.9975, c.y2 * 0.9975)
    ensures Apply(ZoomIn, Apply(ZoomOut, c)) == Apply(ZoomOut, Apply(ZoomIn, c))
    ensures Apply(ZoomOut, Apply(ZoomIn, c)) == c <==> c.x2 == 0.0 && c.y2 == 0.0
  {
  }

  /** Translating and zooming do not commute: zooming after a move to the
      right puts the right edge half a unit further than zooming first. */
  lemma ZoomAfterMoveDiffers(c: CropperPosition)
    ensures Apply(ZoomIn, Apply(UpX, c)).x2 == Apply(UpX, Apply(ZoomIn, c)).x2 + 0.5
  {
  }

  /** The rectangle after running `cmds` in order from `c`. */
  function Run(c: CropperPosition, cmds: seq<Command>): CropperPosition
    decreases |cmds|
  {
    if cmds == [] then c else Run(Apply(cmds[0], c), cmds[1..])
  }

  /** Sum of the horizontal displacements of a command sequence. */
  function TotalDx(cmds: seq<Command>): real
  {
    if cmds == [] then 0.0 else Dx(cmds[0]) + TotalDx(cmds[1..])
  }

  /** Sum of the vertical displacements of a command sequence. */
  function TotalDy(cmds: seq<Command>): real
  {
    if cmds == [] then 0.0 else Dy(cmds[0]) + TotalDy(cmds[1..])
  }

  ghost predicate AllTranslations(cmds: seq<Command>)
  {
    forall i :: 0 <= i < |cmds| ==> cmds[i].IsTranslation()
  }

  /** Whatever the commands, the top-left corner ends up displaced by the sum
      of the translations: zooms never move it. */
  lemma {:induction false} RunTopLeft(c: CropperPosition, cmds: seq<Command>)
    ensures Run(c, cmds).x1 == c.x1 + TotalDx(cmds)
    ensures Run(c, cmds).y1 == c.y1 + TotalDy(cmds)
    decreases |cmds|
  {
    if cmds != [] {
      RunTopLeft(Apply(cmds[0], c), cmds[1..]);
    }
  }

  /** A sequence of translations is a single translation by the summed
      displacement, so it keeps the rectangle's width and height. */
  lemma {:induction false} RunTranslations(c: CropperPosition, cmds: seq<Command>)
    requires AllTranslations(cmds)
    ensures Run(c, cmds) == Shifted(c, TotalDx(cmds), TotalDy(cmds))
    decreases |cmds|
  {
    if cmds != [] {
      assert cmds[0].IsTranslation();
      RunTranslations(Apply(cmds[0], c), cmds[1..]);
    }
  }

  /** Running two sequences one after the other is running their concatenation. */
  lemma {:induction false} RunAppend(c: CropperPosition, s: seq<Command>, t: seq<Command>)
    ensures Run(c, s + t) == Run(Run(c, s), t)
    decreases |s|
  {
    if s != [] {
      assert (s + t)[0] == s[0] && (s + t)[1..] == s[1..] + t;
      RunAppend(Apply(s[0], c), s[1..], t);
    } else {
      assert s + t == t;
    }
  }

  /** `n` copies of one command. */
  function Repeat(cmd: Command, n: nat): (r: seq<Command>)
    ensures |r| == n && forall i :: 0 <= i < n ==> r[i] == cmd
  {
    seq(n, _ => cmd)
  }

  /** `n` presses of one translation move the rectangle `n` steps. */
  lemma {:induction false} RunRepeat(c: CropperPosition, cmd: Command, n: nat)
    requires cmd.IsTranslation()
    ensures Run(c, Repeat(cmd, n)) == Shifted(c, n as real * Dx(cmd), n as real * Dy(cmd))
    decreases n
  {
    if n > 0 {
      assert Repeat(cmd, n)[1..] == Repeat(cmd, n - 1);
      RunRepeat(Apply(cmd, c), cmd, n - 1);
    }
  }

  /** `n` moves in one direction followed by `n` moves back restore the rectangle. */
  lemma BackAndForth(c: CropperPosition, cmd: Command, n: nat)
    requires cmd.IsTranslation()
    ensures Run(c, Repeat(cmd, n) + Repeat(Opposite(cmd), n)) == c
  {
    RunAppend(c, Repeat(cmd, n), Repeat(Opposite(cmd), n));
    RunRepeat(c, cmd, n);
    RunRepeat(Run(c, Repeat(cmd, n)), Opposite(cmd), n);
  }
}
