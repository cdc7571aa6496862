/** Optional values, and the sizes of finite sets. */
module Basics {

  datatype Option<T> = None | Some(value: T)

  lemma Subset<T>(few: set<T>, many: set<T>)
    requires few <= many
    ensures |few| <= |many|
  {
    assert many == few + (many - few);
  }
}
