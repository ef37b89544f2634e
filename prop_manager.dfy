/**
 * The prop registry: props placed on stage, keyed by id.
 */
module Props {
  import opened Wrappers
  import opened JsValues
  import opened Models

  const DefaultPropScale: real := 1.0

  datatype Prop = Prop(position: Point, scale: real)

  /** Placing a prop under a new id and then removing that id gives back the
      registry as it was. */
  lemma AddThenRemove(m: map<string, Prop>, id: string, p: Prop)
    requires id !in m
    ensures m[id := p] - {id} == m
  {
    assert (m[id := p] - {id}).Keys == m.Keys;
  }

  class PropManager {
    var props: map<string, Prop>

    constructor ()
      ensures props == map[]
    {
      props := map[];
    }

    /** Places (or replaces) the prop `id`; a missing scale is 1. */
    method AddProp(id: string, position: Point, scale: Option<real>)
      modifies this
      ensures props == old(props)[id := Prop(position, Default(scale, DefaultPropScale))]
      ensures id in props && props[id] == Prop(position, Default(scale, DefaultPropScale))
      ensures forall other :: other != id ==> (other in props <==> other in old(props))
      ensures forall other :: other != id && other in props ==> props[other] == old(props)[other]
    {
      props := props[id := Prop(position, Default(scale, DefaultPropScale))];
    }

    /** Removes exactly the key `id`; an absent id changes nothing. */
    method RemoveProp(id: string)
      modifies this
      ensures id !in props
      ensures id !in old(props) ==> props == old(props)
      ensures props == old(props) - {id}
    {
      if id in props {
        props := props - {id};
      }
    }

    method Clear()
      modifies this
      ensures props == map[]
    {
      props := map[];
    }
  }
}
