/** Activation functions.  The Java code calls `value` and `derivative` on an
    `ActivationFunction` object, or uses none at all (a `null` activation)
    on the linear output layer.  Sigmoid and Tanh are transcendental and are
    not modelled: an activation is any pair of real functions. */
module Activations {
  import opened Wrappers

  datatype Activation = Activation(value: real -> real, derivative: real -> real)

  /** What a unit outputs for weighted sum `z`: `None` passes `z` through. */
  function Activate(act: Option<Activation>, z: real): real {
    match act
    case None => z
    case Some(a) => a.value(z)
  }

  /** The gradient at weighted sum `z` for output gradient `g`: without an
      activation the derivative is 1 and is not multiplied in. */
  function LocalGradient(act: Option<Activation>, g: real, z: real): real {
    match act
    case None => g
    case Some(a) => g * a.derivative(z)
  }
}
