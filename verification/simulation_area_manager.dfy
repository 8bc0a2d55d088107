/** The area holder: stores the `(width, height)` pair the robot may move
    within and refuses to be built without one. */
module SimulationAreaManager {
  import opened Optional

  /** The dimensions of the table. Valid grid points run from 0 to `width`
      and from 0 to `height`, both inclusive. No sign check is made: the
      source accepts whatever pair the configuration supplies. */
  datatype Area = Area(width: int, height: int)

  /** The holder's single field; the class attribute starts out as `None`. */
  datatype AreaHolder = AreaHolder(area: Option<Area>)

  /** Overwrites the stored pair with `(x, y)`. */
  function SetSimulationArea(h: AreaHolder, x: int, y: int): (r: AreaHolder)
    ensures r.area.Some?
    ensures r.area.value.width == x && r.area.value.height == y
  {
    h.(area := Some(Area(x, y)))
  }

  /** Construction. A missing configuration raises, modelled as `None`;
      otherwise the holder stores the configured pair component by component. */
  function New(config: Option<Area>): (r: Option<AreaHolder>)
    ensures r.None? <==> config.None?
    ensures r.Some? ==> r.value.area == config
  {
    match config
    case None => None
    case Some(a) => Some(SetSimulationArea(AreaHolder(None), a.width, a.height))
  }

  /** Reads the stored pair back; raises (`None`) only when nothing is stored. */
  function GetSimulationArea(h: AreaHolder): (r: Option<Area>)
    ensures r.None? <==> h.area.None?
    ensures r.Some? ==> r.value.width == h.area.value.width && r.value.height == h.area.value.height
  {
    if h.area.Some? then h.area else None
  }

  /** A successfully built holder always answers, and with exactly the
      configured pair. */
  lemma ConstructedHolderAnswers(config: Option<Area>)
    requires New(config).Some?
    ensures GetSimulationArea(New(config).value) == config
    ensures config.Some?
  {
  }

  /** Setting then getting returns the pair just set, whatever was stored before. */
  lemma SetThenGet(h: AreaHolder, x: int, y: int)
    ensures GetSimulationArea(SetSimulationArea(h, x, y)) == Some(Area(x, y))
  {
  }
}
