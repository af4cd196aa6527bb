// The panel's user record.

module Panel {

  datatype User = User(id: int, uuid: string, speedLimit: int, deviceLimit: int)
}
