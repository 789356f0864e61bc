/**
 * The robot records of backend/models.py: the table of supported models,
 * the stored robot and its calibration, and `device_type`.
 */
module Models {
  import opened Wrappers

  /** One entry of SUPPORTED_MODELS: the roles a model may take and the device type of each. */
  datatype ModelInfo = ModelInfo(roles: seq<string>, deviceTypes: map<string, string>)

  /** SUPPORTED_MODELS: only the SO-101 arm, as a leader or as a follower. */
  const SupportedModels: map<string, ModelInfo> :=
    map["so101" := ModelInfo(["leader", "follower"],
                             map["leader" := "so101_leader", "follower" := "so101_follower"])]

  /** A joint's recorded range; the source stores floats, modelled here as reals. */
  datatype JointCalibration = JointCalibration(name: string, min: real, max: real, current: real)

  /** A saved calibration; `updatedAt` is the ISO text of its timestamp. */
  datatype Calibration = Calibration(joints: seq<JointCalibration>, updatedAt: string)

  /** RobotCreate: the fields a client supplies when registering an arm. */
  datatype RobotCreate = RobotCreate(name: string, model: string, role: string, comPort: string)

  /**
   * Robot: a registered arm as the API returns it. `lastSeen` is the ISO text
   * of the last time its port was present.
   */
  datatype Robot = Robot(
    id: string,
    name: string,
    model: string,
    role: string,
    comPort: string,
    status: string,
    hasCalibration: bool,
    calibration: Option<Calibration>,
    lastSeen: Option<string>)

  /** The status a Robot has until the port monitor says otherwise. */
  const DefaultStatus := "offline"

  /** CalibrationStart: the request body of a calibration start; `override` defaults to false. */
  datatype CalibrationStart = CalibrationStart(override: bool)
  const DefaultCalibrationStart := CalibrationStart(false)

  /** CalibrationInput: raw text for the calibration process; `data` defaults to "". */
  datatype CalibrationInput = CalibrationInput(data: string)
  const DefaultCalibrationInput := CalibrationInput("")

  /**
   * `RobotBase.device_type`: the table's device type for the model and role,
   * or "<model>_<role>" when either is not in the table.
   */
  function DeviceType(model: string, role: string): (r: string)
    ensures model == "so101" && role == "leader" ==> r == "so101_leader"
    ensures model == "so101" && role == "follower" ==> r == "so101_follower"
    ensures model !in SupportedModels ==> r == model + "_" + role
  {
    var mapping := if model in SupportedModels then SupportedModels[model].deviceTypes else map[];
    if role in mapping then mapping[role] else model + "_" + role
  }

  /** With the table as it stands, the device type is always "<model>_<role>". */
  lemma DeviceTypeIsModelRole(model: string, role: string)
    ensures DeviceType(model, role) == model + "_" + role
  {
    if model == "so101" && role in SupportedModels[model].deviceTypes {
      assert role == "leader" || role == "follower";
    }
  }

  /** Whether `role` is listed for `model` in SUPPORTED_MODELS. */
  predicate RoleSupported(model: string, role: string) {
    model in SupportedModels && role in SupportedModels[model].roles
  }

  /** The SO-101 takes exactly the roles "leader" and "follower". */
  lemma So101Roles(role: string)
    ensures RoleSupported("so101", role) <==> role == "leader" || role == "follower"
  {
  }
}
