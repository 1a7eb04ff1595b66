/** The player controller: per-frame input handling (zoom, stamina, jump, crouch, ground
    probe, head-bob phase), the late camera step and the fixed physics step.

    Each phase is given twice: as a pure step function on a `ControllerState` snapshot,
    whose contract states what the phase promises, and as a method of the class
    `FirstPersonController`, which updates the fields in the order the script does and is
    proved to produce exactly the step function's result. Engine facts (smoothed axes,
    key edges, ray hits, the rigidbody's velocity, the world-space move direction) are
    inputs; forces handed to the rigidbody are logged. */
module FirstPerson {
  import opened Unity

  /** The inspector settings, fixed once the controller exists. */
  datatype Config = Config(
    fov: real,
    invertCamera: bool,
    cameraCanMove: bool,
    mouseSensitivity: real,
    maxLookAngle: real,
    enableCameraSmoothing: bool,
    cameraSmoothing: real,
    enableZoom: bool,
    holdToZoom: bool,
    zoomFOV: real,
    zoomStepTime: real,
    playerCanMove: bool,
    walkSpeed: real,
    maxVelocityChange: real,
    enableSprint: bool,
    unlimitedSprint: bool,
    sprintSpeed: real,
    sprintDuration: real,
    sprintCooldown: real,
    sprintFOV: real,
    enableJump: bool,
    jumpPower: real,
    enableCrouch: bool,
    holdToCrouch: bool,
    crouchHeight: real,
    speedReduction: real,
    enableHeadBob: bool,
    hasJoint: bool,
    bobSpeed: real)
  {
    /** Crouch divides walkSpeed by speedReduction; a zero factor is outside the model. */
    predicate Divisible() { speedReduction != 0.0 }

    /** walkSpeed after crouching down and after standing up. */
    function CrouchSpeed(speed: real): real { speed * speedReduction }
    function StandSpeed(speed: real): real requires Divisible() { speed / speedReduction }

    /** The yaw and pitch a smoothed mouse movement asks for. */
    function MouseYaw(mouse: Vec2): real { mouse.x * mouseSensitivity }
    function MousePitch(mouse: Vec2): real { mouse.y * mouseSensitivity }

    /** The interpolation fraction of the camera smoothing for a frame of length dt. */
    function SmoothingSpeed(dt: real): real { cameraSmoothing * dt }

    /** The interpolation fraction of the field-of-view transition for a frame of length dt. */
    function ZoomFraction(dt: real): real { dt * zoomStepTime }
  }

  /** The values the script declares for its inspector fields; the head-bob joint is a
      Transform with no initial value, so it starts unassigned. */
  const Defaults: Config := Config(
    60.0, false, true, 2.0, 50.0, true, 10.0,
    true, false, 30.0, 5.0,
    true, 5.0, 10.0,
    true, false, 7.0, 5.0, 0.5, 80.0,
    true, 5.0,
    true, true, 0.75, 0.5,
    true, false, 10.0)

  /** A force handed to the rigidbody: ForceMode.VelocityChange or ForceMode.Impulse. */
  datatype Force = VelocityChange(v: Vec3) | Impulse(v: Vec3)

  /** Target and smoothed camera angles. */
  datatype Camera = Camera(targetYaw: real, targetPitch: real, currentYaw: real, currentPitch: real)

  /** The zoom flag, the field of view the camera heads for and the one it shows. */
  datatype Lens = Lens(isZoomed: bool, targetFOV: real, currentFOV: real)

  /** The sprint bookkeeping. */
  datatype Stamina = Stamina(
    isSprinting: bool,
    sprintRemaining: real,
    isSprintCooldown: bool,
    sprintCooldown: real,
    sprintCooldownReset: real)

  /** Crouch flag, body scale and the walking speed that crouching scales. */
  datatype Posture = Posture(isCrouched: bool, originalScale: Vec3, scale: Vec3, walkSpeed: real)

  /** The controller's mutable fields, plus the log of forces it has applied. */
  datatype ControllerState = ControllerState(
    mouseInput: Vec2,
    movementInput: Vec2,
    jumpPressed: bool,
    camera: Camera,
    lens: Lens,
    stamina: Stamina,
    posture: Posture,
    isWalking: bool,
    isGrounded: bool,
    timer: real,
    forces: seq<Force>)

  /** The engine facts one rendered frame's Update reads. `mouse` and `movement` are the
      results of the two Vector2.SmoothDamp calls. */
  datatype FrameInput = FrameInput(
    dt: real,
    mouse: Vec2,
    movement: Vec2,
    jumpDown: bool,
    zoomDown: bool,
    zoomUp: bool,
    crouchDown: bool,
    crouchUp: bool,
    centerHit: bool,
    leftHit: bool,
    rightHit: bool)

  /** The engine facts one FixedUpdate reads. `worldMove` is
      transform.TransformDirection(new Vector3(_movementInput.x, 0, _movementInput.y)). */
  datatype PhysicsInput = PhysicsInput(sprintHeld: bool, velocity: Vec3, worldMove: Vec3)

  // ---------------------------------------------------------------------------
  // Awake

  /** Awake, from the transform's yaw, camera pitch and scale. With unlimited sprint the
      stamina fields keep their zero defaults. */
  function Awake(cfg: Config, yaw: real, pitch: real, scale: Vec3): (s: ControllerState)
    ensures s.lens == Lens(false, cfg.fov, cfg.fov)
    ensures s.camera == Camera(yaw, pitch, yaw, pitch)
    ensures s.posture == Posture(false, scale, scale, cfg.walkSpeed)
    ensures !cfg.unlimitedSprint ==>
              s.stamina.sprintRemaining == cfg.sprintDuration && s.stamina.sprintCooldownReset == cfg.sprintCooldown
    ensures cfg.unlimitedSprint ==> s.stamina.sprintRemaining == 0.0 && s.stamina.sprintCooldownReset == 0.0
    ensures s.stamina.sprintCooldown == cfg.sprintCooldown
    ensures !s.stamina.isSprinting && !s.stamina.isSprintCooldown && !s.isGrounded && !s.isWalking
    ensures s.forces == [] && s.timer == 0.0
  {
    ControllerState(
      Vec2(0.0, 0.0), Vec2(0.0, 0.0), false,
      Camera(yaw, pitch, yaw, pitch),
      Lens(false, cfg.fov, cfg.fov),
      Stamina(false, if cfg.unlimitedSprint then 0.0 else cfg.sprintDuration,
              false, cfg.sprintCooldown, if cfg.unlimitedSprint then 0.0 else cfg.sprintCooldown),
      Posture(false, scale, scale, cfg.walkSpeed),
      false, false, 0.0, [])
  }

  // ---------------------------------------------------------------------------
  // Update, region by region

  /** The zoom region of Update, given whether the player is sprinting. */
  function ZoomStep(cfg: Config, l: Lens, sprinting: bool, down: bool, up: bool): (r: Lens)
    ensures !cfg.enableZoom ==> r == l
    ensures r.currentFOV == l.currentFOV
    ensures cfg.enableZoom && !cfg.holdToZoom ==>
              r.isZoomed == (if down && !sprinting then !l.isZoomed else l.isZoomed)
    ensures cfg.enableZoom && cfg.holdToZoom && !sprinting ==>
              (down ==> r.isZoomed) && (!down && up ==> !r.isZoomed) &&
              (!down && !up ==> r.isZoomed == l.isZoomed)
    ensures cfg.enableZoom && cfg.holdToZoom && sprinting ==> r.isZoomed == l.isZoomed
    ensures cfg.enableZoom && r.isZoomed ==> r.targetFOV == cfg.zoomFOV
    ensures cfg.enableZoom && !r.isZoomed && !sprinting ==> r.targetFOV == cfg.fov
    ensures cfg.enableZoom && !r.isZoomed && sprinting ==> r.targetFOV == l.targetFOV
  {
    if !cfg.enableZoom then l
    else
      var toggled := if down && !cfg.holdToZoom && !sprinting then !l.isZoomed else l.isZoomed;
      var zoomed := if cfg.holdToZoom && !sprinting
                    then (if down then true else if up then false else toggled)
                    else toggled;
      var target := if zoomed then cfg.zoomFOV else if !zoomed && !sprinting then cfg.fov else l.targetFOV;
      Lens(zoomed, target, l.currentFOV)
  }

  /** The drain/regeneration half of the sprint region: while sprinting (and unless sprint
      is unlimited) the stamina drains by dt WITHOUT clamping, and running out starts the
      cooldown; otherwise it regenerates, clamped to [0, sprintDuration]. */
  function DrainStep(cfg: Config, st: Stamina, dt: real): (r: Stamina)
    ensures r.sprintCooldown == st.sprintCooldown && r.sprintCooldownReset == st.sprintCooldownReset
    ensures st.isSprinting && cfg.unlimitedSprint ==> r == st
    ensures st.isSprinting && !cfg.unlimitedSprint ==> r.sprintRemaining == st.sprintRemaining - dt
    ensures st.isSprinting && !cfg.unlimitedSprint && r.sprintRemaining <= 0.0 ==>
              !r.isSprinting && r.isSprintCooldown
    ensures st.isSprinting && !cfg.unlimitedSprint && r.sprintRemaining > 0.0 ==>
              r.isSprinting && r.isSprintCooldown == st.isSprintCooldown
    ensures !st.isSprinting ==>
              !r.isSprinting && r.isSprintCooldown == st.isSprintCooldown &&
              r.sprintRemaining == Clamp(st.sprintRemaining + dt, 0.0, cfg.sprintDuration)
    ensures !st.isSprinting && 0.0 <= cfg.sprintDuration ==> 0.0 <= r.sprintRemaining <= cfg.sprintDuration
  {
    if st.isSprinting then
      if cfg.unlimitedSprint then st
      else
        var left := st.sprintRemaining - dt;
        if left <= 0.0 then st.(sprintRemaining := left, isSprinting := false, isSprintCooldown := true)
        else st.(sprintRemaining := left)
    else
      st.(sprintRemaining := Clamp(st.sprintRemaining + dt, 0.0, cfg.sprintDuration))
  }

  /** The cooldown half of the sprint region: while in cooldown the counter runs down and
      the flag clears once it is <= 0; out of cooldown the counter is re-armed. */
  function CooldownStep(st: Stamina, dt: real): (r: Stamina)
    ensures r.isSprinting == st.isSprinting && r.sprintRemaining == st.sprintRemaining
    ensures r.sprintCooldownReset == st.sprintCooldownReset
    ensures st.isSprintCooldown ==>
              r.sprintCooldown == st.sprintCooldown - dt && (r.isSprintCooldown <==> r.sprintCooldown > 0.0)
    ensures !st.isSprintCooldown ==> !r.isSprintCooldown && r.sprintCooldown == st.sprintCooldownReset
  {
    if st.isSprintCooldown then
      var left := st.sprintCooldown - dt;
      if left <= 0.0 then st.(sprintCooldown := left, isSprintCooldown := false)
      else st.(sprintCooldown := left)
    else
      st.(sprintCooldown := st.sprintCooldownReset)
  }

  /** The field-of-view half of the sprint region: sprinting cancels the zoom and heads
      for the sprint field of view. */
  function SprintLens(cfg: Config, l: Lens, st: Stamina): (r: Lens)
    ensures cfg.enableSprint && st.isSprinting ==> r == Lens(false, cfg.sprintFOV, l.currentFOV)
    ensures !(cfg.enableSprint && st.isSprinting) ==> r == l
  {
    if cfg.enableSprint && st.isSprinting then l.(isZoomed := false, targetFOV := cfg.sprintFOV) else l
  }

  /** The stamina half of the sprint region: drain or regeneration, then the cooldown. */
  function SprintStamina(cfg: Config, st: Stamina, dt: real): (r: Stamina)
    ensures !cfg.enableSprint ==> r == st
    ensures r.sprintCooldownReset == st.sprintCooldownReset
    ensures !st.isSprinting ==> !r.isSprinting
    ensures cfg.enableSprint && !st.isSprinting ==>
              r.sprintRemaining == Clamp(st.sprintRemaining + dt, 0.0, cfg.sprintDuration)
  {
    if cfg.enableSprint then CooldownStep(DrainStep(cfg, st, dt), dt) else st
  }

  /** The crouched body scale. */
  function CrouchedScale(cfg: Config, original: Vec3): Vec3 {
    Vec3(original.x, cfg.crouchHeight, original.z)
  }

  /** The body scale agrees with the crouch flag. */
  predicate ScaleMatches(cfg: Config, p: Posture) {
    p.scale == (if p.isCrouched then CrouchedScale(cfg, p.originalScale) else p.originalScale)
  }

  /** Crouch(): flips isCrouched; entering sets the crouched scale and multiplies walkSpeed
      by speedReduction, leaving restores the original scale and divides. */
  function CrouchStep(cfg: Config, p: Posture): (r: Posture)
    requires cfg.Divisible()
    ensures r.isCrouched == !p.isCrouched && r.originalScale == p.originalScale
    ensures ScaleMatches(cfg, r)
    ensures r.isCrouched ==> r.walkSpeed == cfg.CrouchSpeed(p.walkSpeed)
    ensures !r.isCrouched ==> r.walkSpeed == cfg.StandSpeed(p.walkSpeed)
  {
    if p.isCrouched then
      p.(scale := p.originalScale, walkSpeed := cfg.StandSpeed(p.walkSpeed), isCrouched := false)
    else
      p.(scale := CrouchedScale(cfg, p.originalScale), walkSpeed := cfg.CrouchSpeed(p.walkSpeed), isCrouched := true)
  }

  lemma MulDiv(a: real, b: real)
    requires b != 0.0
    ensures (a * b) / b == a && (a / b) * b == a
  {
  }

  /** Two consecutive Crouch() calls restore walkSpeed and the flag, and the whole posture
      when the scale agreed with the flag beforehand. */
  lemma CrouchTwiceRestores(cfg: Config, p: Posture)
    requires cfg.Divisible()
    ensures CrouchStep(cfg, CrouchStep(cfg, p)).walkSpeed == p.walkSpeed
    ensures CrouchStep(cfg, CrouchStep(cfg, p)).isCrouched == p.isCrouched
    ensures ScaleMatches(cfg, p) ==> CrouchStep(cfg, CrouchStep(cfg, p)) == p
  {
    MulDiv(p.walkSpeed, cfg.speedReduction);
  }

  /** The crouch-key region of Update. In toggle mode a press is one Crouch(); in hold
      mode a press forces isCrouched false before Crouch() and a release forces it true,
      so a press always ends crouched (multiplying walkSpeed) and a release always ends
      standing (dividing it), whatever the flag was. */
  function CrouchKeysStep(cfg: Config, p: Posture, down: bool, up: bool): (r: Posture)
    requires cfg.Divisible()
    ensures r.originalScale == p.originalScale
    ensures !cfg.enableCrouch ==> r == p
    ensures cfg.enableCrouch && !cfg.holdToCrouch ==> r == if down then CrouchStep(cfg, p) else p
    ensures cfg.enableCrouch && cfg.holdToCrouch && down ==>
              r.isCrouched && ScaleMatches(cfg, r) && r.walkSpeed == cfg.CrouchSpeed(p.walkSpeed)
    ensures cfg.enableCrouch && cfg.holdToCrouch && !down && up ==>
              !r.isCrouched && ScaleMatches(cfg, r) && r.walkSpeed == cfg.StandSpeed(p.walkSpeed)
    ensures cfg.enableCrouch && cfg.holdToCrouch && !down && !up ==> r == p
  {
    if !cfg.enableCrouch then p
    else
      var t := if down && !cfg.holdToCrouch then CrouchStep(cfg, p) else p;
      if down && cfg.holdToCrouch then CrouchStep(cfg, t.(isCrouched := false))
      else if up && cfg.holdToCrouch then CrouchStep(cfg, t.(isCrouched := true))
      else t
  }

  /** The impulse a jump applies. */
  function JumpImpulse(cfg: Config): Force { Impulse(Vec3(0.0, cfg.jumpPower, 0.0)) }

  /** The forces Jump() leaves: one more impulse when the body was grounded. */
  function JumpForces(cfg: Config, grounded: bool, forces: seq<Force>): (r: seq<Force>)
    ensures grounded ==> r == forces + [JumpImpulse(cfg)]
    ensures !grounded ==> r == forces
  {
    if grounded then forces + [JumpImpulse(cfg)] else forces
  }

  /** The posture Jump() leaves: in toggle mode a crouched body stands up. */
  function JumpPosture(cfg: Config, p: Posture): (r: Posture)
    requires cfg.Divisible()
    ensures p.isCrouched && !cfg.holdToCrouch ==> r == CrouchStep(cfg, p) && !r.isCrouched
    ensures !(p.isCrouched && !cfg.holdToCrouch) ==> r == p
    ensures ScaleMatches(cfg, p) ==> ScaleMatches(cfg, r)
  {
    if p.isCrouched && !cfg.holdToCrouch then CrouchStep(cfg, p) else p
  }

  /** The rate at which the head-bob phase advances while walking. */
  function BobRate(cfg: Config, sprinting: bool, crouched: bool): real {
    if sprinting then cfg.bobSpeed + cfg.sprintSpeed
    else if crouched then cfg.bobSpeed * cfg.speedReduction
    else cfg.bobSpeed
  }

  /** Sprinting takes precedence over crouching, and with non-negative speeds and a
      reduction factor in [0, 1] the crouched rate is at most the walking rate, which is
      at most the sprinting rate. */
  lemma BobRateOrder(cfg: Config, crouched: bool)
    requires 0.0 <= cfg.bobSpeed && 0.0 <= cfg.sprintSpeed && 0.0 <= cfg.speedReduction <= 1.0
    ensures BobRate(cfg, true, crouched) == cfg.bobSpeed + cfg.sprintSpeed
    ensures BobRate(cfg, false, true) <= BobRate(cfg, false, false) <= BobRate(cfg, true, crouched)
  {
  }

  /** The head-bob timer rule: while walking the phase timer advances by dt times the
      rate; otherwise it is reset to 0. (The joint position is left out.) */
  function BobTimer(cfg: Config, timer: real, walking: bool, sprinting: bool, crouched: bool, dt: real): (t: real)
    ensures !walking ==> t == 0.0
    ensures walking && 0.0 <= dt && 0.0 <= BobRate(cfg, sprinting, crouched) ==> timer <= t
    ensures walking && dt == 0.0 ==> t == timer
  {
    if walking then timer + dt * BobRate(cfg, sprinting, crouched) else 0.0
  }

  /** Update fires a jump exactly when jumping is enabled, the key went down this frame and
      the body was grounded. */
  predicate JumpFires(cfg: Config, s: ControllerState, inp: FrameInput) {
    cfg.enableJump && inp.jumpDown && s.isGrounded
  }

  /** One whole Update: the regions in the script's order, then the field-of-view
      transition. Only the final transition moves the shown field of view. */
  function FrameStep(cfg: Config, s: ControllerState, inp: FrameInput): (r: ControllerState)
    requires cfg.Divisible()
    ensures r.mouseInput == inp.mouse && r.movementInput == inp.movement && r.jumpPressed == inp.jumpDown
    ensures r.isGrounded <==> inp.centerHit || inp.leftHit || inp.rightHit
    ensures JumpFires(cfg, s, inp) ==> r.forces == s.forces + [JumpImpulse(cfg)]
    ensures !JumpFires(cfg, s, inp) ==> r.forces == s.forces
    ensures r.camera == s.camera && r.isWalking == s.isWalking
    ensures r.posture.originalScale == s.posture.originalScale
    ensures r.stamina.sprintCooldownReset == s.stamina.sprintCooldownReset
    ensures !s.stamina.isSprinting ==> !r.stamina.isSprinting
    ensures !(cfg.enableHeadBob && cfg.hasJoint) ==> r.timer == s.timer
  {
    var zoomed := ZoomStep(cfg, s.lens, s.stamina.isSprinting, inp.zoomDown, inp.zoomUp);
    var lens := SprintLens(cfg, zoomed, s.stamina);
    var stamina := SprintStamina(cfg, s.stamina, inp.dt);
    var jump := JumpFires(cfg, s, inp);
    var jumped := if jump then JumpPosture(cfg, s.posture) else s.posture;
    var posture := CrouchKeysStep(cfg, jumped, inp.crouchDown, inp.crouchUp);
    var timer := if cfg.enableHeadBob && cfg.hasJoint
                 then BobTimer(cfg, s.timer, s.isWalking, stamina.isSprinting, posture.isCrouched, inp.dt)
                 else s.timer;
    s.(mouseInput := inp.mouse, movementInput := inp.movement, jumpPressed := inp.jumpDown,
       lens := lens.(currentFOV := Lerp(lens.currentFOV, lens.targetFOV, cfg.ZoomFraction(inp.dt))),
       stamina := stamina,
       posture := posture,
       isGrounded := inp.centerHit || inp.leftHit || inp.rightHit,
       timer := timer,
       forces := if jump then JumpForces(cfg, s.isGrounded, s.forces) else s.forces)
  }

  lemma FrameStepByRegions(cfg: Config, s: ControllerState, inp: FrameInput, r: ControllerState)
    requires cfg.Divisible()
    requires r.mouseInput == inp.mouse && r.movementInput == inp.movement && r.jumpPressed == inp.jumpDown
    requires r.camera == s.camera && r.isWalking == s.isWalking
    requires var lens := SprintLens(cfg, ZoomStep(cfg, s.lens, s.stamina.isSprinting, inp.zoomDown, inp.zoomUp), s.stamina);
             r.lens == lens.(currentFOV := Lerp(lens.currentFOV, lens.targetFOV, cfg.ZoomFraction(inp.dt)))
    requires r.stamina == SprintStamina(cfg, s.stamina, inp.dt)
    requires var jump := JumpFires(cfg, s, inp);
             var jumped := if jump then JumpPosture(cfg, s.posture) else s.posture;
             r.posture == CrouchKeysStep(cfg, jumped, inp.crouchDown, inp.crouchUp) &&
             r.forces == (if jump then JumpForces(cfg, s.isGrounded, s.forces) else s.forces)
    requires r.isGrounded == (inp.centerHit || inp.leftHit || inp.rightHit)
    requires r.timer == if cfg.enableHeadBob && cfg.hasJoint
                        then BobTimer(cfg, s.timer, s.isWalking, r.stamina.isSprinting, r.posture.isCrouched, inp.dt)
                        else s.timer
    ensures r == FrameStep(cfg, s, inp)
  {
  }

  /** Each frame the shown field of view moves from where it was towards the target,
      without overshooting, and reaches it once the frame's fraction is at least 1. */
  lemma FovApproaches(cfg: Config, s: ControllerState, inp: FrameInput)
    requires cfg.Divisible()
    ensures var r := FrameStep(cfg, s, inp);
            (s.lens.currentFOV <= r.lens.targetFOV ==> s.lens.currentFOV <= r.lens.currentFOV <= r.lens.targetFOV) &&
            (r.lens.targetFOV <= s.lens.currentFOV ==> r.lens.targetFOV <= r.lens.currentFOV <= s.lens.currentFOV) &&
            (1.0 <= cfg.ZoomFraction(inp.dt) ==> r.lens.currentFOV == r.lens.targetFOV)
  {
    var r := FrameStep(cfg, s, inp);
    assert r.lens.currentFOV == Lerp(s.lens.currentFOV, r.lens.targetFOV, cfg.ZoomFraction(inp.dt));
  }

  // ---------------------------------------------------------------------------
  // LateUpdate

  /** +1 when the camera is inverted, -1 otherwise. */
  function PitchSign(cfg: Config): real { if cfg.invertCamera then 1.0 else -1.0 }

  /** The camera step of LateUpdate from the smoothed mouse axes. */
  function LookStep(cfg: Config, c: Camera, mouse: Vec2, dt: real): (r: Camera)
    ensures !cfg.cameraCanMove ==> r == c
    ensures cfg.cameraCanMove ==> r.targetYaw == c.targetYaw + cfg.MouseYaw(mouse)
    ensures cfg.cameraCanMove ==>
              r.targetPitch == Clamp(c.targetPitch + PitchSign(cfg) * cfg.MousePitch(mouse),
                                     -cfg.maxLookAngle, cfg.maxLookAngle)
    ensures cfg.cameraCanMove && 0.0 <= cfg.maxLookAngle ==> -cfg.maxLookAngle <= r.targetPitch <= cfg.maxLookAngle
    ensures cfg.cameraCanMove && !cfg.enableCameraSmoothing ==>
              r.currentYaw == r.targetYaw && r.currentPitch == r.targetPitch
    ensures cfg.cameraCanMove && cfg.enableCameraSmoothing ==>
              r.currentYaw == LerpAngle(c.currentYaw, r.targetYaw, cfg.SmoothingSpeed(dt)) &&
              r.currentPitch == LerpAngle(c.currentPitch, r.targetPitch, cfg.SmoothingSpeed(dt))
  {
    if !cfg.cameraCanMove then c
    else
      var yaw := c.targetYaw + cfg.MouseYaw(mouse);
      var raw := if !cfg.invertCamera then c.targetPitch - cfg.MousePitch(mouse)
                 else c.targetPitch + cfg.MousePitch(mouse);
      var pitch := Clamp(raw, -cfg.maxLookAngle, cfg.maxLookAngle);
      if cfg.enableCameraSmoothing then
        var k := cfg.SmoothingSpeed(dt);
        Camera(yaw, pitch, LerpAngle(c.currentYaw, yaw, k), LerpAngle(c.currentPitch, pitch, k))
      else
        Camera(yaw, pitch, yaw, pitch)
  }

  // ---------------------------------------------------------------------------
  // FixedUpdate

  /** The velocity change towards a target velocity: each horizontal component is
      clamped to [-maxChange, maxChange] and the vertical one is zero. */
  function Correction(target: Vec3, velocity: Vec3, maxChange: real): (dv: Vec3)
    ensures dv.y == 0.0
    ensures 0.0 <= maxChange ==> -maxChange <= dv.x <= maxChange && -maxChange <= dv.z <= maxChange
    ensures -maxChange <= target.x - velocity.x <= maxChange ==> dv.x == target.x - velocity.x
    ensures -maxChange <= target.z - velocity.z <= maxChange ==> dv.z == target.z - velocity.z
    ensures 0.0 <= maxChange && maxChange < target.x - velocity.x ==> dv.x == maxChange
    ensures 0.0 <= maxChange && target.x - velocity.x < -maxChange ==> dv.x == -maxChange
    ensures 0.0 <= maxChange && maxChange < target.z - velocity.z ==> dv.z == maxChange
    ensures 0.0 <= maxChange && target.z - velocity.z < -maxChange ==> dv.z == -maxChange
  {
    var d := target.Minus(velocity);
    Vec3(Clamp(d.x, -maxChange, maxChange), 0.0, Clamp(d.z, -maxChange, maxChange))
  }

  /** The sprint branch of FixedUpdate is taken. */
  predicate SprintGate(cfg: Config, st: Stamina, p: PhysicsInput) {
    cfg.enableSprint && p.sprintHeld && st.sprintRemaining > 0.0 && !st.isSprintCooldown
  }

  /** A velocity change large enough to count as moving. */
  predicate Significant(dv: Vec3) { Abs(dv.x) > 0.1 || Abs(dv.z) > 0.1 }

  /** The velocity change FixedUpdate applies: towards the sprint speed in the sprint
      branch, the current walkSpeed otherwise. */
  function Velocity(cfg: Config, st: Stamina, walkSpeed: real, p: PhysicsInput): Vec3 {
    var speed := if SprintGate(cfg, st, p) then cfg.sprintSpeed else walkSpeed;
    Correction(p.worldMove.Scale(speed), p.velocity, cfg.maxVelocityChange)
  }

  function Applied(cfg: Config, s: ControllerState, p: PhysicsInput): Vec3 {
    Velocity(cfg, s.stamina, s.posture.walkSpeed, p)
  }

  /** What the movement part of FixedUpdate changes besides the walking flag. */
  datatype Motion = Motion(isSprinting: bool, posture: Posture, forces: seq<Force>)

  /** The sprint-or-walk branch of FixedUpdate on the parts of the state it touches. */
  function DriveStep(cfg: Config, st: Stamina, pos: Posture, forces: seq<Force>, p: PhysicsInput): (r: Motion)
    requires cfg.Divisible()
    ensures r.forces == forces + [VelocityChange(Velocity(cfg, st, pos.walkSpeed, p))]
    ensures !SprintGate(cfg, st, p) ==> !r.isSprinting && r.posture == pos
    ensures SprintGate(cfg, st, p) && Significant(Velocity(cfg, st, pos.walkSpeed, p)) ==>
              r.isSprinting && !r.posture.isCrouched &&
              r.posture == if pos.isCrouched then CrouchStep(cfg, pos) else pos
    ensures SprintGate(cfg, st, p) && !Significant(Velocity(cfg, st, pos.walkSpeed, p)) ==>
              r.isSprinting == st.isSprinting && r.posture == pos
  {
    var gate := SprintGate(cfg, st, p);
    var dv := Velocity(cfg, st, pos.walkSpeed, p);
    var sprint := gate && Significant(dv);
    Motion(if gate then sprint || st.isSprinting else false,
           if sprint && pos.isCrouched then CrouchStep(cfg, pos) else pos,
           forces + [VelocityChange(dv)])
  }

  /** Walking: some smoothed movement axis exceeds 0.1 in magnitude while grounded. */
  predicate Walking(s: ControllerState) {
    (Abs(s.movementInput.x) > 0.1 || Abs(s.movementInput.y) > 0.1) && s.isGrounded
  }

  /** One FixedUpdate. */
  function PhysicsStep(cfg: Config, s: ControllerState, p: PhysicsInput): (r: ControllerState)
    requires cfg.Divisible()
    ensures r == s.(isWalking := r.isWalking, stamina := s.stamina.(isSprinting := r.stamina.isSprinting),
                    posture := r.posture, forces := r.forces)
    ensures !cfg.playerCanMove ==> r == s
    ensures cfg.playerCanMove ==> r.isWalking == Walking(s)
    ensures cfg.playerCanMove ==> r.forces == s.forces + [VelocityChange(Applied(cfg, s, p))]
    ensures cfg.playerCanMove && !SprintGate(cfg, s.stamina, p) ==>
              !r.stamina.isSprinting && r.posture == s.posture
    ensures cfg.playerCanMove && SprintGate(cfg, s.stamina, p) && Significant(Applied(cfg, s, p)) ==>
              r.stamina.isSprinting && !r.posture.isCrouched &&
              r.posture == (if s.posture.isCrouched then CrouchStep(cfg, s.posture) else s.posture)
    ensures cfg.playerCanMove && SprintGate(cfg, s.stamina, p) && !Significant(Applied(cfg, s, p)) ==>
              r.stamina.isSprinting == s.stamina.isSprinting && r.posture == s.posture
    ensures r.stamina.isSprinting && !s.stamina.isSprinting ==> SprintGate(cfg, s.stamina, p)
  {
    if !cfg.playerCanMove then s
    else
      var m := DriveStep(cfg, s.stamina, s.posture, s.forces, p);
      s.(isWalking := Walking(s), stamina := s.stamina.(isSprinting := m.isSprinting),
         posture := m.posture, forces := m.forces)
  }

  /** The field-by-field description FixedUpdate ensures is the whole physics step. */
  lemma PhysicsStepByParts(cfg: Config, s: ControllerState, p: PhysicsInput, r: ControllerState)
    requires cfg.Divisible()
    requires r == s.(isWalking := r.isWalking, stamina := s.stamina.(isSprinting := r.stamina.isSprinting),
                     posture := r.posture, forces := r.forces)
    requires !cfg.playerCanMove ==> r == s
    requires cfg.playerCanMove ==>
               r.isWalking == Walking(s) &&
               Motion(r.stamina.isSprinting, r.posture, r.forces) == DriveStep(cfg, s.stamina, s.posture, s.forces, p)
    ensures r == PhysicsStep(cfg, s, p)
  {
  }

  // ---------------------------------------------------------------------------
  // Traces of phases

  datatype Event = Frame(input: FrameInput) | Late(dt: real) | Fixed(physics: PhysicsInput)

  /** Frame deltas are never negative. */
  predicate TimeForward(e: Event) {
    match e
    case Frame(i) => 0.0 <= i.dt
    case Late(dt) => 0.0 <= dt
    case Fixed(_) => true
  }

  function Step(cfg: Config, s: ControllerState, e: Event): ControllerState
    requires cfg.Divisible()
  {
    match e
    case Frame(i) => FrameStep(cfg, s, i)
    case Late(dt) => s.(camera := LookStep(cfg, s.camera, s.mouseInput, dt))
    case Fixed(p) => PhysicsStep(cfg, s, p)
  }

  function Run(cfg: Config, s: ControllerState, events: seq<Event>): ControllerState
    requires cfg.Divisible()
    decreases |events|
  {
    if events == [] then s else Run(cfg, Step(cfg, s, events[0]), events[1..])
  }

  /** Stamina never exceeds the duration, sprinting implies stamina is left, and cooldown
      excludes sprinting. */
  predicate StaminaInv(cfg: Config, st: Stamina) {
    st.sprintRemaining <= cfg.sprintDuration &&
    (st.isSprinting ==> st.sprintRemaining > 0.0) &&
    (st.isSprintCooldown ==> !st.isSprinting)
  }

  /** The scale agrees with the crouch flag, and in toggle mode walkSpeed is the
      configured speed, reduced while crouched. */
  predicate PostureInv(cfg: Config, p: Posture) {
    ScaleMatches(cfg, p) &&
    (!cfg.holdToCrouch ==>
       p.walkSpeed == (if p.isCrouched then cfg.CrouchSpeed(cfg.walkSpeed) else cfg.walkSpeed))
  }

  /** What every reachable state satisfies. */
  predicate Inv(cfg: Config, s: ControllerState) {
    StaminaInv(cfg, s.stamina) && PostureInv(cfg, s.posture)
  }

  lemma AwakeEstablishesInv(cfg: Config, yaw: real, pitch: real, scale: Vec3)
    requires 0.0 <= cfg.sprintDuration
    ensures Inv(cfg, Awake(cfg, yaw, pitch, scale))
  {
  }

  lemma CrouchKeepsInv(cfg: Config, p: Posture)
    requires cfg.Divisible() && PostureInv(cfg, p)
    ensures PostureInv(cfg, CrouchStep(cfg, p))
  {
    MulDiv(cfg.walkSpeed, cfg.speedReduction);
  }

  lemma SprintKeepsInv(cfg: Config, st: Stamina, dt: real)
    requires 0.0 <= cfg.sprintDuration && 0.0 <= dt && StaminaInv(cfg, st)
    ensures StaminaInv(cfg, SprintStamina(cfg, st, dt))
  {
  }

  lemma CrouchKeysKeepInv(cfg: Config, p: Posture, down: bool, up: bool)
    requires cfg.Divisible() && PostureInv(cfg, p)
    ensures PostureInv(cfg, CrouchKeysStep(cfg, p, down, up))
  {
    if cfg.enableCrouch && !cfg.holdToCrouch && down { CrouchKeepsInv(cfg, p); }
  }

  /** A frame's stamina and posture are those of the sprint and crouch-key regions. */
  lemma FrameParts(cfg: Config, s: ControllerState, inp: FrameInput)
    requires cfg.Divisible()
    ensures FrameStep(cfg, s, inp).stamina == SprintStamina(cfg, s.stamina, inp.dt)
    ensures FrameStep(cfg, s, inp).posture ==
              CrouchKeysStep(cfg, if JumpFires(cfg, s, inp) then JumpPosture(cfg, s.posture) else s.posture,
                             inp.crouchDown, inp.crouchUp)
  {
  }

  lemma FrameKeepsInv(cfg: Config, s: ControllerState, inp: FrameInput)
    requires cfg.Divisible() && 0.0 <= cfg.sprintDuration && 0.0 <= inp.dt && Inv(cfg, s)
    ensures Inv(cfg, FrameStep(cfg, s, inp))
  {
    FrameParts(cfg, s, inp);
    SprintKeepsInv(cfg, s.stamina, inp.dt);
    var jumped := if JumpFires(cfg, s, inp) then JumpPosture(cfg, s.posture) else s.posture;
    if JumpFires(cfg, s, inp) && s.posture.isCrouched && !cfg.holdToCrouch { CrouchKeepsInv(cfg, s.posture); }
    CrouchKeysKeepInv(cfg, jumped, inp.crouchDown, inp.crouchUp);
    assert PostureInv(cfg, FrameStep(cfg, s, inp).posture);
  }

  lemma PhysicsKeepsInv(cfg: Config, s: ControllerState, p: PhysicsInput)
    requires cfg.Divisible() && Inv(cfg, s)
    ensures Inv(cfg, PhysicsStep(cfg, s, p))
  {
    if s.posture.isCrouched { CrouchKeepsInv(cfg, s.posture); }
  }

  lemma StepKeepsInv(cfg: Config, s: ControllerState, e: Event)
    requires cfg.Divisible() && 0.0 <= cfg.sprintDuration && TimeForward(e) && Inv(cfg, s)
    ensures Inv(cfg, Step(cfg, s, e))
  {
    match e
    case Frame(i) => FrameKeepsInv(cfg, s, i);
    case Late(dt) =>
    case Fixed(p) => PhysicsKeepsInv(cfg, s, p);
  }

  /** Over any sequence of phases with non-negative deltas the invariant is kept; with
      Awake it holds of every state the controller reaches. */
  lemma {:induction false} RunKeepsInv(cfg: Config, s: ControllerState, events: seq<Event>)
    requires cfg.Divisible() && 0.0 <= cfg.sprintDuration && Inv(cfg, s)
    requires forall i :: 0 <= i < |events| ==> TimeForward(events[i])
    ensures Inv(cfg, Run(cfg, s, events))
    decreases |events|
  {
    if events != [] {
      StepKeepsInv(cfg, s, events[0]);
      RunKeepsInv(cfg, Step(cfg, s, events[0]), events[1..]);
    }
  }

  /** A target pitch inside [-maxLookAngle, maxLookAngle] stays inside over any sequence
      of phases: only the camera step writes it, and it clamps. */
  lemma {:induction false} RunKeepsPitch(cfg: Config, s: ControllerState, events: seq<Event>)
    requires cfg.Divisible() && -cfg.maxLookAngle <= s.camera.targetPitch <= cfg.maxLookAngle
    ensures var r := Run(cfg, s, events); -cfg.maxLookAngle <= r.camera.targetPitch <= cfg.maxLookAngle
    decreases |events|
  {
    if events != [] {
      var t := Step(cfg, s, events[0]);
      assert -cfg.maxLookAngle <= t.camera.targetPitch <= cfg.maxLookAngle;
      RunKeepsPitch(cfg, t, events[1..]);
    }
  }

  /** The drain branch does not clamp: a frame longer than the stamina left takes
      sprintRemaining below zero, and the next frame regenerates from that negative value. */
  lemma DrainOvershoots(cfg: Config, st: Stamina)
    requires !cfg.unlimitedSprint && 0.01 <= cfg.sprintDuration
    requires st.isSprinting && st.sprintRemaining == 0.01
    ensures var r := DrainStep(cfg, st, 0.05);
            r.sprintRemaining == -0.04 && !r.isSprinting && r.isSprintCooldown
    ensures DrainStep(cfg, DrainStep(cfg, st, 0.05), 0.05).sprintRemaining == 0.01
  {
  }

  /** In hold-to-crouch mode a jump leaves the posture alone, so a frame's posture is
      the crouch keys' result on the old posture. */
  lemma HoldFramePosture(cfg: Config, s: ControllerState, inp: FrameInput)
    requires cfg.Divisible() && cfg.holdToCrouch
    ensures FrameStep(cfg, s, inp).posture == CrouchKeysStep(cfg, s.posture, inp.crouchDown, inp.crouchUp)
  {
  }

  /** With hold-to-crouch, a press crouches (walkSpeed times speedReduction); a sprinting
      physics step then stands the body up through Crouch(), restoring walkSpeed; the
      release then forces isCrouched true and calls Crouch() again, which stands up once
      more and divides: walkSpeed ends at the original speed divided by speedReduction
      instead of the original speed (twice it with the default 0.5). */
  lemma {:induction false} HoldCrouchSprintDrift(cfg: Config, s: ControllerState, press: FrameInput, p: PhysicsInput, release: FrameInput)
    requires cfg.Divisible() && cfg.enableCrouch && cfg.holdToCrouch && cfg.playerCanMove
    requires press.crouchDown && release.crouchUp && !release.crouchDown
    requires var s1 := FrameStep(cfg, s, press);
             SprintGate(cfg, s1.stamina, p) && Significant(Applied(cfg, s1, p))
    ensures var r := Run(cfg, s, [Frame(press), Fixed(p), Frame(release)]);
            !r.posture.isCrouched && r.posture.walkSpeed == cfg.StandSpeed(s.posture.walkSpeed)
    ensures cfg == Defaults ==>
              Run(cfg, s, [Frame(press), Fixed(p), Frame(release)]).posture.walkSpeed == 2.0 * s.posture.walkSpeed
  {
    var events := [Frame(press), Fixed(p), Frame(release)];
    var w := s.posture.walkSpeed;
    var s1 := FrameStep(cfg, s, press);
    HoldFramePosture(cfg, s, press);
    assert s1.posture.isCrouched && s1.posture.walkSpeed == cfg.CrouchSpeed(w);
    var s2 := PhysicsStep(cfg, s1, p);
    MulDiv(w, cfg.speedReduction);
    assert !s2.posture.isCrouched && s2.posture.walkSpeed == w;
    var s3 := FrameStep(cfg, s2, release);
    HoldFramePosture(cfg, s2, release);
    assert !s3.posture.isCrouched && s3.posture.walkSpeed == cfg.StandSpeed(w);
    assert Run(cfg, s, events) == Run(cfg, s1, events[1..]);
    assert Run(cfg, s1, events[1..]) == Run(cfg, s2, events[2..]);
    assert Run(cfg, s2, events[2..]) == Run(cfg, s3, events[3..]);
    assert events[3..] == [];
  }

  // ---------------------------------------------------------------------------
  // The MonoBehaviour

  class FirstPersonController {
    const cfg: Config
    const originalScale: Vec3
    const sprintCooldownReset: real

    var mouseInput: Vec2
    var movementInput: Vec2
    var jumpPressed: bool
    var targetYaw: real
    var targetPitch: real
    var currentYaw: real
    var currentPitch: real
    var isZoomed: bool
    var targetFOV: real
    var currentFOV: real
    var walkSpeed: real
    var isWalking: bool
    var isSprinting: bool
    var sprintRemaining: real
    var isSprintCooldown: bool
    var sprintCooldown: real
    var isGrounded: bool
    var isCrouched: bool
    var scale: Vec3
    var timer: real
    var forces: seq<Force>

    ghost function Snapshot(): ControllerState
      reads this
    {
      ControllerState(mouseInput, movementInput, jumpPressed,
                      Camera(targetYaw, targetPitch, currentYaw, currentPitch),
                      Lens(isZoomed, targetFOV, currentFOV),
                      Stamina(isSprinting, sprintRemaining, isSprintCooldown, sprintCooldown, sprintCooldownReset),
                      Posture(isCrouched, originalScale, scale, walkSpeed),
                      isWalking, isGrounded, timer, forces)
    }

    /** Awake: `yaw`, `pitch` and `scale` are the transform's values at that moment. */
    constructor (cfg: Config, yaw: real, pitch: real, scale: Vec3)
      ensures this.cfg == cfg && Snapshot() == Awake(cfg, yaw, pitch, scale)
    {
      this.cfg := cfg;
      currentFOV := cfg.fov;
      targetFOV := cfg.fov;
      originalScale := scale;
      this.scale := scale;
      currentYaw, currentPitch := yaw, pitch;
      targetYaw, targetPitch := yaw, pitch;
      walkSpeed := cfg.walkSpeed;
      sprintCooldown := cfg.sprintCooldown;
      if !cfg.unlimitedSprint {
        sprintRemaining := cfg.sprintDuration;
        sprintCooldownReset := cfg.sprintCooldown;
      } else {
        sprintRemaining := 0.0;
        sprintCooldownReset := 0.0;
      }
      mouseInput, movementInput, jumpPressed := Vec2(0.0, 0.0), Vec2(0.0, 0.0), false;
      isZoomed, isWalking, isSprinting, isSprintCooldown := false, false, false, false;
      isGrounded, isCrouched, timer, forces := false, false, 0.0, [];
    }

    method Update(inp: FrameInput)
      requires cfg.Divisible()
      modifies this`mouseInput, this`movementInput, this`jumpPressed, this`isZoomed, this`targetFOV, this`currentFOV,
               this`isSprinting, this`sprintRemaining, this`isSprintCooldown, this`sprintCooldown,
               this`isGrounded, this`forces, this`isCrouched, this`scale, this`walkSpeed, this`timer
      ensures mouseInput == inp.mouse && movementInput == inp.movement && jumpPressed == inp.jumpDown
      ensures var lens := SprintLens(cfg, ZoomStep(cfg, old(Lens(isZoomed, targetFOV, currentFOV)), old(isSprinting), inp.zoomDown, inp.zoomUp), old(Stamina(isSprinting, sprintRemaining, isSprintCooldown, sprintCooldown, sprintCooldownReset)));
              Lens(isZoomed, targetFOV, currentFOV) == lens.(currentFOV := Lerp(lens.currentFOV, lens.targetFOV, cfg.ZoomFraction(inp.dt)))
      ensures Stamina(isSprinting, sprintRemaining, isSprintCooldown, sprintCooldown, sprintCooldownReset) == SprintStamina(cfg, old(Stamina(isSprinting, sprintRemaining, isSprintCooldown, sprintCooldown, sprintCooldownReset)), inp.dt)
      ensures var jump := cfg.enableJump && inp.jumpDown && old(isGrounded);
              var jumped := if jump then JumpPosture(cfg, old(Posture(isCrouched, originalScale, scale, walkSpeed))) else old(Posture(isCrouched, originalScale, scale, walkSpeed));
              Posture(isCrouched, originalScale, scale, walkSpeed) == CrouchKeysStep(cfg, jumped, inp.crouchDown, inp.crouchUp) &&
              forces == (if jump then JumpForces(cfg, old(isGrounded), old(forces)) else old(forces))
      ensures isGrounded == (inp.centerHit || inp.leftHit || inp.rightHit)
      ensures timer == if cfg.enableHeadBob && cfg.hasJoint
                       then BobTimer(cfg, old(timer), isWalking, isSprinting, isCrouched, inp.dt)
                       else old(timer)
    {
      ReadAndHandle(inp);
      Settle(inp.dt, inp.centerHit, inp.leftHit, inp.rightHit);
    }

    method ReadAndHandle(inp: FrameInput)
      requires cfg.Divisible()
      modifies this`mouseInput, this`movementInput, this`jumpPressed, this`isZoomed, this`targetFOV,
               this`isSprinting, this`sprintRemaining, this`isSprintCooldown, this`sprintCooldown,
               this`isGrounded, this`forces, this`isCrouched, this`scale, this`walkSpeed
      ensures mouseInput == inp.mouse && movementInput == inp.movement && jumpPressed == inp.jumpDown
      ensures Lens(isZoomed, targetFOV, currentFOV) == SprintLens(cfg, ZoomStep(cfg, old(Lens(isZoomed, targetFOV, currentFOV)), old(isSprinting), inp.zoomDown, inp.zoomUp), old(Stamina(isSprinting, sprintRemaining, isSprintCooldown, sprintCooldown, sprintCooldownReset)))
      ensures Stamina(isSprinting, sprintRemaining, isSprintCooldown, sprintCooldown, sprintCooldownReset) == SprintStamina(cfg, old(Stamina(isSprinting, sprintRemaining, isSprintCooldown, sprintCooldown, sprintCooldownReset)), inp.dt)
      ensures var jump := cfg.enableJump && inp.jumpDown && old(isGrounded);
              var jumped := if jump then JumpPosture(cfg, old(Posture(isCrouched, originalScale, scale, walkSpeed))) else old(Posture(isCrouched, originalScale, scale, walkSpeed));
              Posture(isCrouched, originalScale, scale, walkSpeed) == CrouchKeysStep(cfg, jumped, inp.crouchDown, inp.crouchUp) &&
              forces == (if jump then JumpForces(cfg, old(isGrounded), old(forces)) else old(forces))
    {
      ReadInput(inp);
      HandleKeys(inp);
    }

    method ReadInput(inp: FrameInput)
      modifies this`mouseInput, this`movementInput, this`jumpPressed
      ensures mouseInput == inp.mouse && movementInput == inp.movement && jumpPressed == inp.jumpDown
    {
      mouseInput := inp.mouse;
      movementInput := inp.movement;
      jumpPressed := inp.jumpDown;
    }

    method HandleKeys(inp: FrameInput)
      requires cfg.Divisible()
      modifies this`isZoomed, this`targetFOV,
               this`isSprinting, this`sprintRemaining, this`isSprintCooldown, this`sprintCooldown,
               this`isGrounded, this`forces, this`isCrouched, this`scale, this`walkSpeed
      ensures Lens(isZoomed, targetFOV, currentFOV) == SprintLens(cfg, ZoomStep(cfg, old(Lens(isZoomed, targetFOV, currentFOV)), old(isSprinting), inp.zoomDown, inp.zoomUp), old(Stamina(isSprinting, sprintRemaining, isSprintCooldown, sprintCooldown, sprintCooldownReset)))
      ensures Stamina(isSprinting, sprintRemaining, isSprintCooldown, sprintCooldown, sprintCooldownReset) == SprintStamina(cfg, old(Stamina(isSprinting, sprintRemaining, isSprintCooldown, sprintCooldown, sprintCooldownReset)), inp.dt)
      ensures var jump := cfg.enableJump && jumpPressed && old(isGrounded);
              var jumped := if jump then JumpPosture(cfg, old(Posture(isCrouched, originalScale, scale, walkSpeed))) else old(Posture(isCrouched, originalScale, scale, walkSpeed));
              Posture(isCrouched, originalScale, scale, walkSpeed) == CrouchKeysStep(cfg, jumped, inp.crouchDown, inp.crouchUp) &&
              forces == (if jump then JumpForces(cfg, old(isGrounded), old(forces)) else old(forces))
    {
      ZoomAndSprint(inp);
      JumpAndCrouch(inp);
    }

    method ZoomAndSprint(inp: FrameInput)
      modifies this`isZoomed, this`targetFOV,
               this`isSprinting, this`sprintRemaining, this`isSprintCooldown, this`sprintCooldown
      ensures Lens(isZoomed, targetFOV, currentFOV) == SprintLens(cfg, ZoomStep(cfg, old(Lens(isZoomed, targetFOV, currentFOV)), old(isSprinting), inp.zoomDown, inp.zoomUp), old(Stamina(isSprinting, sprintRemaining, isSprintCooldown, sprintCooldown, sprintCooldownReset)))
      ensures Stamina(isSprinting, sprintRemaining, isSprintCooldown, sprintCooldown, sprintCooldownReset) == SprintStamina(cfg, old(Stamina(isSprinting, sprintRemaining, isSprintCooldown, sprintCooldown, sprintCooldownReset)), inp.dt)
    {
      ZoomKeys(inp.zoomDown, inp.zoomUp);
      SprintTick(inp.dt);
    }

    method JumpAndCrouch(inp: FrameInput)
      requires cfg.Divisible()
      modifies this`isGrounded, this`forces, this`isCrouched, this`scale, this`walkSpeed
      ensures var jump := cfg.enableJump && jumpPressed && old(isGrounded);
              var jumped := if jump then JumpPosture(cfg, old(Posture(isCrouched, originalScale, scale, walkSpeed))) else old(Posture(isCrouched, originalScale, scale, walkSpeed));
              Posture(isCrouched, originalScale, scale, walkSpeed) == CrouchKeysStep(cfg, jumped, inp.crouchDown, inp.crouchUp) &&
              forces == (if jump then JumpForces(cfg, old(isGrounded), old(forces)) else old(forces))
    {
      JumpKey();
      CrouchKeys(inp.crouchDown, inp.crouchUp);
    }

    /** The jump region of Update. */
    method JumpKey()
      requires cfg.Divisible()
      modifies this`isGrounded, this`forces, this`isCrouched, this`scale, this`walkSpeed
      ensures var jump := cfg.enableJump && jumpPressed && old(isGrounded);
              Posture(isCrouched, originalScale, scale, walkSpeed) ==
                (if jump then JumpPosture(cfg, old(Posture(isCrouched, originalScale, scale, walkSpeed))) else old(Posture(isCrouched, originalScale, scale, walkSpeed))) &&
              forces == (if jump then JumpForces(cfg, old(isGrounded), old(forces)) else old(forces))
    {
      if cfg.enableJump && jumpPressed && isGrounded {
        Jump();
      }
    }

    method Settle(dt: real, centerHit: bool, leftHit: bool, rightHit: bool)
      modifies this`isGrounded, this`timer, this`currentFOV
      ensures isGrounded == (centerHit || leftHit || rightHit)
      ensures timer == if cfg.enableHeadBob && cfg.hasJoint
                       then BobTimer(cfg, old(timer), isWalking, isSprinting, isCrouched, dt)
                       else old(timer)
      ensures currentFOV == Lerp(old(currentFOV), targetFOV, cfg.ZoomFraction(dt))
    {
      CheckGround(centerHit, leftHit, rightHit);
      if cfg.enableHeadBob && cfg.hasJoint {
        HeadBob(dt);
      }
      currentFOV := Lerp(currentFOV, targetFOV, cfg.ZoomFraction(dt));
    }

    /** The zoom region of Update, given the zoom key's edges this frame. */
    method ZoomKeys(down: bool, up: bool)
      modifies this`isZoomed, this`targetFOV
      ensures Lens(isZoomed, targetFOV, currentFOV) == ZoomStep(cfg, old(Lens(isZoomed, targetFOV, currentFOV)), isSprinting, down, up)
    {
      if cfg.enableZoom {
        if down && !cfg.holdToZoom && !isSprinting {
          isZoomed := !isZoomed;
        }
        if cfg.holdToZoom && !isSprinting {
          if down {
            isZoomed := true;
          } else if up {
            isZoomed := false;
          }
        }
        if isZoomed {
          targetFOV := cfg.zoomFOV;
        } else if !isZoomed && !isSprinting {
          targetFOV := cfg.fov;
        }
      }
    }

    /** The sprint region of Update. */
    method SprintTick(dt: real)
      modifies this`isZoomed, this`targetFOV, this`isSprinting, this`sprintRemaining,
               this`isSprintCooldown, this`sprintCooldown
      ensures Lens(isZoomed, targetFOV, currentFOV) == SprintLens(cfg, old(Lens(isZoomed, targetFOV, currentFOV)), old(Stamina(isSprinting, sprintRemaining, isSprintCooldown, sprintCooldown, sprintCooldownReset)))
      ensures Stamina(isSprinting, sprintRemaining, isSprintCooldown, sprintCooldown, sprintCooldownReset) == SprintStamina(cfg, old(Stamina(isSprinting, sprintRemaining, isSprintCooldown, sprintCooldown, sprintCooldownReset)), dt)
    {
      if cfg.enableSprint {
        if isSprinting {
          isZoomed := false;
          targetFOV := cfg.sprintFOV;
          if !cfg.unlimitedSprint {
            sprintRemaining := sprintRemaining - dt;
            if sprintRemaining <= 0.0 {
              isSprinting := false;
              isSprintCooldown := true;
            }
          }
        } else {
          sprintRemaining := Clamp(sprintRemaining + dt, 0.0, cfg.sprintDuration);
        }
        assert Stamina(isSprinting, sprintRemaining, isSprintCooldown, sprintCooldown, sprintCooldownReset) == DrainStep(cfg, old(Stamina(isSprinting, sprintRemaining, isSprintCooldown, sprintCooldown, sprintCooldownReset)), dt);
        if isSprintCooldown {
          sprintCooldown := sprintCooldown - dt;
          if sprintCooldown <= 0.0 {
            isSprintCooldown := false;
          }
        } else {
          sprintCooldown := sprintCooldownReset;
        }
      }
    }

    /** The crouch-key region of Update, given the crouch key's edges this frame. */
    method CrouchKeys(down: bool, up: bool)
      requires cfg.Divisible()
      modifies this`isCrouched, this`scale, this`walkSpeed
      ensures Posture(isCrouched, originalScale, scale, walkSpeed) == CrouchKeysStep(cfg, old(Posture(isCrouched, originalScale, scale, walkSpeed)), down, up)
    {
      if cfg.enableCrouch {
        if down && !cfg.holdToCrouch {
          Crouch();
        }
        if down && cfg.holdToCrouch {
          isCrouched := false;
          Crouch();
        } else if up && cfg.holdToCrouch {
          isCrouched := true;
          Crouch();
        }
      }
    }

    /** The camera part of LateUpdate. */
    method LateUpdate(dt: real)
      modifies this`targetYaw, this`targetPitch, this`currentYaw, this`currentPitch
      ensures Camera(targetYaw, targetPitch, currentYaw, currentPitch) == LookStep(cfg, old(Camera(targetYaw, targetPitch, currentYaw, currentPitch)), mouseInput, dt)
    {
      if cfg.cameraCanMove {
        targetYaw := targetYaw + cfg.MouseYaw(mouseInput);
        if !cfg.invertCamera {
          targetPitch := targetPitch - cfg.MousePitch(mouseInput);
        } else {
          targetPitch := targetPitch + cfg.MousePitch(mouseInput);
        }
        targetPitch := Clamp(targetPitch, -cfg.maxLookAngle, cfg.maxLookAngle);
        if cfg.enableCameraSmoothing {
          var smoothingSpeed := cfg.SmoothingSpeed(dt);
          currentYaw := LerpAngle(currentYaw, targetYaw, smoothingSpeed);
          currentPitch := LerpAngle(currentPitch, targetPitch, smoothingSpeed);
        } else {
          currentYaw := targetYaw;
          currentPitch := targetPitch;
        }
      }
    }

    method FixedUpdate(p: PhysicsInput)
      requires cfg.Divisible()
      modifies this`isWalking, this`isSprinting, this`forces, this`isCrouched, this`scale, this`walkSpeed
      ensures !cfg.playerCanMove ==>
                isWalking == old(isWalking) && isSprinting == old(isSprinting) && forces == old(forces) &&
                Posture(isCrouched, originalScale, scale, walkSpeed) == old(Posture(isCrouched, originalScale, scale, walkSpeed))
      ensures cfg.playerCanMove ==> isWalking == ((Abs(movementInput.x) > 0.1 || Abs(movementInput.y) > 0.1) && isGrounded)
      ensures cfg.playerCanMove ==>
                Motion(isSprinting, Posture(isCrouched, originalScale, scale, walkSpeed), forces) ==
                DriveStep(cfg, old(Stamina(isSprinting, sprintRemaining, isSprintCooldown, sprintCooldown, sprintCooldownReset)), old(Posture(isCrouched, originalScale, scale, walkSpeed)), old(forces), p)
    {
      if cfg.playerCanMove {
        SetWalking();
        Drive(p);
      }
    }

    /** The walking flag of FixedUpdate. */
    method SetWalking()
      modifies this`isWalking
      ensures isWalking == ((Abs(movementInput.x) > 0.1 || Abs(movementInput.y) > 0.1) && isGrounded)
    {
      if (Abs(movementInput.x) > 0.1 || Abs(movementInput.y) > 0.1) && isGrounded {
        isWalking := true;
      } else {
        isWalking := false;
      }
    }

    /** The sprint-or-walk choice of FixedUpdate. */
    method Drive(p: PhysicsInput)
      requires cfg.Divisible()
      modifies this`isSprinting, this`forces, this`isCrouched, this`scale, this`walkSpeed
      ensures Motion(isSprinting, Posture(isCrouched, originalScale, scale, walkSpeed), forces) ==
              DriveStep(cfg, old(Stamina(isSprinting, sprintRemaining, isSprintCooldown, sprintCooldown, sprintCooldownReset)), old(Posture(isCrouched, originalScale, scale, walkSpeed)), old(forces), p)
    {
      if cfg.enableSprint && p.sprintHeld && sprintRemaining > 0.0 && !isSprintCooldown {
        SprintBranch(p);
      } else {
        WalkBranch(p);
      }
    }

    /** The sprint branch of FixedUpdate. */
    method SprintBranch(p: PhysicsInput)
      requires cfg.Divisible()
      modifies this`isSprinting, this`forces, this`isCrouched, this`scale, this`walkSpeed
      ensures var dv := Correction(p.worldMove.Scale(cfg.sprintSpeed), p.velocity, cfg.maxVelocityChange);
              isSprinting == (Significant(dv) || old(isSprinting)) &&
              Posture(isCrouched, originalScale, scale, walkSpeed) ==
                (if Significant(dv) && old(isCrouched) then CrouchStep(cfg, old(Posture(isCrouched, originalScale, scale, walkSpeed)))
                 else old(Posture(isCrouched, originalScale, scale, walkSpeed))) &&
              forces == old(forces) + [VelocityChange(dv)]
    {
      var velocityChange := Correction(p.worldMove.Scale(cfg.sprintSpeed), p.velocity, cfg.maxVelocityChange);
      if Abs(velocityChange.x) > 0.1 || Abs(velocityChange.z) > 0.1 {
        isSprinting := true;
        if isCrouched {
          Crouch();
        }
      }
      forces := forces + [VelocityChange(velocityChange)];
    }

    /** The walk branch of FixedUpdate. */
    method WalkBranch(p: PhysicsInput)
      modifies this`isSprinting, this`forces
      ensures !isSprinting
      ensures forces == old(forces) + [VelocityChange(Correction(p.worldMove.Scale(walkSpeed), p.velocity, cfg.maxVelocityChange))]
    {
      isSprinting := false;
      var velocityChange := Correction(p.worldMove.Scale(walkSpeed), p.velocity, cfg.maxVelocityChange);
      forces := forces + [VelocityChange(velocityChange)];
    }

    /** CheckGround: the three ray results are inputs; grounded is their OR. */
    method CheckGround(centerHit: bool, leftHit: bool, rightHit: bool)
      modifies this`isGrounded
      ensures isGrounded <==> centerHit || leftHit || rightHit
    {
      isGrounded := centerHit || leftHit || rightHit;
    }

    method Jump()
      requires cfg.Divisible()
      modifies this`isGrounded, this`forces, this`isCrouched, this`scale, this`walkSpeed
      ensures !isGrounded && forces == JumpForces(cfg, old(isGrounded), old(forces))
      ensures Posture(isCrouched, originalScale, scale, walkSpeed) == JumpPosture(cfg, old(Posture(isCrouched, originalScale, scale, walkSpeed)))
    {
      if isGrounded {
        forces := forces + [Impulse(Vec3(0.0, cfg.jumpPower, 0.0))];
        isGrounded := false;
      }
      if isCrouched && !cfg.holdToCrouch {
        Crouch();
      }
    }

    method Crouch()
      requires cfg.Divisible()
      modifies this`isCrouched, this`scale, this`walkSpeed
      ensures Posture(isCrouched, originalScale, scale, walkSpeed) == CrouchStep(cfg, old(Posture(isCrouched, originalScale, scale, walkSpeed)))
    {
      if isCrouched {
        scale := originalScale;
        walkSpeed := cfg.StandSpeed(walkSpeed);
        isCrouched := false;
      } else {
        scale := Vec3(originalScale.x, cfg.crouchHeight, originalScale.z);
        walkSpeed := cfg.CrouchSpeed(walkSpeed);
        isCrouched := true;
      }
    }

    /** The timer rule of HeadBob; it is called only when head bob is enabled and a joint is set. */
    method HeadBob(dt: real)
      requires cfg.enableHeadBob && cfg.hasJoint
      modifies this`timer
      ensures timer == BobTimer(cfg, old(timer), isWalking, isSprinting, isCrouched, dt)
    {
      if isWalking {
        if isSprinting {
          timer := timer + dt * (cfg.bobSpeed + cfg.sprintSpeed);
        } else if isCrouched {
          timer := timer + dt * (cfg.bobSpeed * cfg.speedReduction);
        } else {
          timer := timer + dt * cfg.bobSpeed;
        }
      } else {
        timer := 0.0;
      }
    }
  }
}
