/** Types shared by both versions of the scene-switch coordinator. */
module Scenes {

  /** A scene type of the application. `None` is the sentinel meaning
      "no scene requested" or "no scene active". */
  datatype SceneName = None | Scene(id: nat)

  /** A value held in a parameter dictionary. */
  datatype Value = IntValue(i: int) | StringValue(s: string) | BoolValue(b: bool)

  /** A parameter bag (a cocos2d ValueMap or CCDictionary), held by value. */
  type ValueMap = map<string, Value>

  /** The payload of a "PlanSceneSwitch" event: the scene stored under the
      "Scene" key, and the whole dictionary, which becomes the scene's parameters. */
  datatype Request = Request(scene: SceneName, infos: ValueMap)

  /** A pointer that may be NULL. */
  datatype Nullable<T> = Null | Some(value: T)
}
