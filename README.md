# minecraf2 core, modelled in Dafny

This project models two parts of the minecraf2 first-person viewer.

- **The 4×4 matrix and vector helpers of `src/common.h`** (module `Common`, `common.dfy`).
  - A `Mat_4` holds sixteen scalars in column-major order: entry (col, row) is at index `col * 4 + row`.
  - `mat4_identity`, `mat4_mul`, `mat4_translate`, `mat4_scale` and `mat4_proj_ortho` are methods. Each builds a local matrix entry by entry as the C code does. `mat4_mul` keeps its triple loop, and its loop invariants prove the result equals the matrix product.
  - Around them are specification functions: `IdentityMatrix`, `Product`, `Translation`, `Scaling`, and `Transform` (a matrix applied to a homogeneous point).
  - Lemmas prove the algebra the viewer relies on:
    - the identity is neutral on both sides;
    - the product is associative;
    - translations compose by adding their offsets, and scalings by multiplying their factors;
    - the orthographic projection of `glOrtho` (section 2.11.2 of the OpenGL 2.1 specification) maps the two corners of its view box to the corners of the clip cube, and these facts with its zero entries fix the matrix.
  - `vec2_sub` is a function.
- **The input and camera state machine of `src/main.c`** (module `Game`, `game.dfy`).
  - `Game_State` is a class holding:
    - the six movement-intent flags;
    - `is_captured`;
    - the camera (position, pitch, yaw).
  - `on_platform_event` is the method `HandleEvent`. Its events are a datatype with the cases key, mouse motion, input captured and other.
  - The movement step of `on_frame` is the method `Frame`.
  - The start pose of `on_init` is the method `Init`.
  - Each method is proved against a specification function on a value snapshot (`GameView`): `Step`, `FrameStep` and `InitStep`. Lemmas about those functions state which flag a key changes and that nothing else changes, how mouse motion turns the camera, and when a frame moves the camera.

All scalars (`float` in the source) are modelled as mathematical reals.

## Model

| member | source | states |
|---|---|---|
| Common.Vec2Sub | src/common.h:46-49 | the result added back to b gives a, in each component |
| Common.Identity | src/common.h:51-59 | entries 0, 5, 10 and 15 are 1 and every other entry is 0; the result is the identity matrix |
| Common.IdentityEntries | src/common.h:51-59 | the identity matrix (1 where column equals row) is the sixteen values mat4_identity writes |
| Common.Mul | src/common.h:61-76 | the triple loop writes all sixteen entries, and the result is the matrix product a * b |
| Common.ProductIndex | src/common.h:64-74 | the sum the inner loop accumulates over k = 0..3 is the product's entry at col * 4 + row |
| Common.ProductEntry | src/common.h:61-76 | entry col * 4 + row of a * b is the sum over k of a[k * 4 + row] * b[col * 4 + k] |
| Common.ProductAt | src/common.h:61-76 | entry (col, row) of a * b is row `row` of a applied to column `col` of b |
| Common.ColumnOfProduct | src/common.h:61-76 | column `col` of a * b is a applied to column `col` of b |
| Common.TransformIdentity | src/common.h:51-59 | the identity maps every point to itself |
| Common.TransformUnit | src/common.h:51-59 | a matrix applied to column k of the identity gives its own column k |
| Common.MulIdentityLeft | src/common.h:51-76 | mat4_mul(mat4_identity(), a) == a |
| Common.MulIdentityRight | src/common.h:51-76 | mat4_mul(a, mat4_identity()) == a |
| Common.TransformProductAt | src/common.h:61-76 | row `row` of (a * b) p equals row `row` of a (b p) |
| Common.TransformProduct | src/common.h:61-76 | (a * b) p == a (b p): a product applies its right factor first |
| Common.MulAssociative | src/common.h:61-76 | (a * b) * c == a * (b * c) over the reals |
| Common.Translate | src/common.h:108-115 | entries 12, 13 and 14 hold x, y and z, and every other entry is the identity's |
| Common.TranslationMovesPoint | src/common.h:108-115 | the translation adds (x, y, z) times w to a point and keeps w |
| Common.TranslationsCompose | src/common.h:108-115 | mat4_mul(mat4_translate(a), mat4_translate(b)) == mat4_translate(a + b) |
| Common.Scale | src/common.h:117-124 | entries 0, 5 and 10 hold x, y and z, and every other entry is the identity's |
| Common.ScalingScalesPoint | src/common.h:117-124 | the scaling multiplies each coordinate by its factor and keeps w |
| Common.ScalingsComposeColumn | src/common.h:117-124 | each column of the product of two scalings is that column of the scaling by the products of the factors |
| Common.ScalingsCompose | src/common.h:117-124 | mat4_mul(mat4_scale(a), mat4_scale(b)) == mat4_scale of the component-wise products |
| Common.ProjOrtho | src/common.h:78-106 | for r != l, t != b and f != n: every off-diagonal entry of the upper 3×3 block is 0, the bottom row is (0, 0, 0, 1), (l, b, -n, 1) maps to (-1, -1, -1, 1) and (r, t, -f, 1) maps to (1, 1, 1, 1); together these fix all sixteen entries to glOrtho's matrix |
| Common.OrthoAxis | src/common.h:78-106 | the x (or y) scale 2 / (hi - lo) and offset -(hi + lo) / (hi - lo) send lo to -1 and hi to 1 |
| Common.OrthoDepth | src/common.h:78-106 | the depth scale -2 / (f - n) and offset -(f + n) / (f - n) send -n to -1 and -f to 1 |
| Common.OrthoCorners | src/common.h:78-106 | glOrtho's sixteen entries send (l, b, -n, 1) to (-1, -1, -1, 1) and (r, t, -f, 1) to (1, 1, 1, 1) |
| Common.AxisDetermined | src/common.h:85-102 | a scale and offset that send lo to -1 and hi to 1 are exactly 2 / (hi - lo) and -(hi + lo) / (hi - lo) |
| Common.OrthoDetermined | src/common.h:78-106 | any matrix meeting ProjOrtho's contract is glOrtho's matrix, entry by entry |
| Common.AffineTransform | src/common.h:78-106 | a matrix shaped like the ortho matrix sends (x, y, z, 1) to (sx x + tx, sy y + ty, sz z + tz, 1) |
| Game.KeyDirection | src/main.c:159-197 | exactly W, S, A, D, Space and Left Control are bound, each to the intent whose key it is |
| Game.KeyBindingRoundTrip | src/main.c:159-197 | each intent's key maps back to that intent, and a key maps to an intent only if it is that intent's key |
| Game.GameState.HandleEvent | src/main.c:153-224 | the new state is Step of the old state and the event |
| Game.PressSetsOnlyItsIntent | src/main.c:159-195 | pressing an intent's key sets that flag and leaves the other five flags, is_captured and the camera unchanged |
| Game.ReleaseClearsOnlyItsIntent | src/main.c:159-195 | releasing an intent's key clears that flag and leaves everything else unchanged |
| Game.PressRelease | src/main.c:161-164 | a press then a release leaves the flag cleared; a second press changes nothing |
| Game.OtherActionIgnored | src/main.c:163-164 | a key action that is neither press nor release (a repeat, say) leaves the state unchanged |
| Game.RepeatIgnored | src/main.c:163-164 | a repeat (GLFW action 2) of any key leaves the state unchanged |
| Game.UnboundKeyIgnored | src/main.c:159-197 | a key outside the six bound keys leaves the state unchanged, whatever its action |
| Game.OtherEventIgnored | src/main.c:222 | an event of another kind leaves the state unchanged |
| Game.MouseMotionUncaptured | src/main.c:200-207 | mouse motion while input is not captured leaves the state unchanged |
| Game.MouseMotionCaptured | src/main.c:202-206 | while captured, yaw decreases by 0.01 dx and pitch by 0.01 dy, unclamped; position, flags and is_captured are kept |
| Game.MouseMotionUndone | src/main.c:202-206 | while captured, a motion followed by the opposite motion restores the state |
| Game.InputCapturedSets | src/main.c:209-220 | a capture event sets is_captured to its value and keeps flags and camera; applying it twice equals applying it once |
| Game.GameState.Frame | src/main.c:119-139 | the new state is FrameStep of the old state |
| Game.FrameKeepsAllButPosition | src/main.c:119-139 | a frame keeps the flags, is_captured, yaw and pitch |
| Game.IdleFrameStaysPut | src/main.c:125-139 | with no flag set the frame leaves the state unchanged |
| Game.OpposedIntentsStayPut | src/main.c:125-139 | when every set flag is paired with its opposite (f/b, l/r, u/d) the contributions cancel and the state is unchanged |
| Game.MovingFrame | src/main.c:134-139 | when the summed movement is not zero, the position moves by normalize(move) * 3.0 * dt |
| Game.ForwardOnly | src/main.c:127-139 | holding forward alone with a non-zero forward vector moves the camera by normalize(forward) * 3.0 * dt |
| Game.MirroredIntentsReverse | src/main.c:127-132 | exchanging every intent for its opposite negates the summed movement |
| Game.GameState.Init | src/main.c:75-76 | the camera is placed at (0, 0, -5) facing yaw PI * 1.5, and nothing else changes |
| Game.InitPose | src/main.c:75-76 | after on_init the position is (0, 0, -5) and yaw 1.5 * 3.1415926535; pitch, flags and is_captured are kept |

## Left out

- Floating-point rounding: every `float` is a real. Identities such as associativity hold exactly here, but only approximately for `float` in the source.
- ProjOrtho: requires right != left, top != bottom and far != near. With equal bounds the C code divides a float by zero and gets infinities or NaNs, and reals have no such values.
- All OpenGL calls are not modelled: shader and buffer creation, viewport, clear, uniform upload and the draw call in `on_init`, `on_frame` and `on_destroy`.
- GLFW calls are not modelled: `glfwSetWindowTitle` and `glfwSetInputMode`. Of the capture event, only the resulting `is_captured` value is modelled.
- The fields of `Game_State` that input and movement do not touch are not modelled: shader program, buffers, window size, rotation and window handle.
- `camera_forward` and `camera_view` are not modelled, because they are trigonometry and `mat4_look_at`.
  - `Frame` takes the camera's forward and right vectors as parameters.
  - Right is `vec3_normalize(vec3_cross(forward, up))` in the source; that expression is not modelled.
- `vec3_normalize` is a function parameter of `Frame` and is otherwise uninterpreted. In the step `Frame` models, its behaviour at the zero vector does not matter: the normalize at src/main.c:136 runs only after the non-zero test at src/main.c:134. The unguarded call at src/main.c:122 computes `right`, which is a parameter here, so its value at a zero cross product (pitch with cos(pitch) = 0, which the unclamped pitch can reach) is not modelled.
- `vec3_add`, `vec3_sub` and `vec3_scale` are defined in a header that is not part of this model. They are written here as component-wise operations.
- `mat4_look_at`, `mat4_proj_perspective`, `mat4_rotate_axis` and the model-view-projection product of `on_frame` are not part of this model.
- The GLFW key codes (W 87, S 83, A 65, D 68, Space 32, Left Control 341) and actions (release 0, press 1, repeat 2) are taken from GLFW's public header, which is not part of this model.
- The event's kind tag is modelled as the datatype case. Every event kind other than key, mouse motion and input captured is `Other`.
- The initial contents of the state the host passes in are not known, so the constructor takes them as a parameter.
- `on_reload` has an empty body and is not modelled. `build.c` is build tooling and is not modelled.
- Common.Mul: its ensures states the result as `Product(a, b)`. The explicit four-term sum for each entry is the separate lemma `ProductEntry`.
