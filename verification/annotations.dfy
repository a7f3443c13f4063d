/**
  The declarations the core consumes: the `@Informer` annotation on an owner class
  and the `@Watch` annotation on each handler method, with reflection reduced to
  plain records.
*/
module Annotations {

  /** The event kind a `@Watch` method handles. */
  datatype EventKind = ADD | UPDATE | DELETE

  /** A Java type, by its type name (`io.fabric8...Pod`, `boolean`, `java.lang.Boolean`). */
  type TypeName = string

  /**
    A `@Watch`-annotated method: its name, the event and resource kind of its
    annotation, and its parameter types in declaration order.
  */
  datatype WatchMethod = WatchMethod(
    name: string,
    event: EventKind,
    resource: TypeName,
    paramTypes: seq<TypeName>)

  /** The `@Informer` annotation of an owner class, one field per annotation element. */
  datatype InformerAnnotation = InformerAnnotation(
    name: string,
    clientName: string,
    nsNames: seq<string>,
    nsLabels: seq<string>,
    resLabels: seq<string>,
    resyncPeriod: int)

  /** The name under which the fallback configuration and the fallback client are registered. */
  const DefaultName: string := "default"

  /** `@Informer` with every element left at its declared default. */
  const DefaultAnnotation: InformerAnnotation :=
    InformerAnnotation(DefaultName, DefaultName, [], [], [], 1000)

  /** A bean carrying `@Informer`: its class name, its annotation and its `@Watch` methods. */
  datatype Owner = Owner(
    beanClass: string,
    informer: InformerAnnotation,
    watchMethods: seq<WatchMethod>)
}
