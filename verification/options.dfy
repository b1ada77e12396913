/**
 * The closed option sets of the cluster's constructor arguments
 * (the `StrEnum` classes of src/aws_cdk_apache_doris/doris_cluster.py) and the
 * string each option stands for.
 */
module Options {

  datatype InstanceTypeOption =
    | T3Large | T3XLarge | T3TwoXLarge
    | M5Large | M5XLarge | M5TwoXLarge | M5FourXLarge
    | M6iLarge | M6iXLarge | M6iTwoXLarge | M6iFourXLarge
    | R5Large | R5XLarge | R5TwoXLarge | R5FourXLarge | R5EightXLarge
    | R6iLarge | R6iXLarge | R6iTwoXLarge | R6iFourXLarge | R6iEightXLarge
  {
    function Value(): string
    {
      match this
      case T3Large => "t3.large"
      case T3XLarge => "t3.xlarge"
      case T3TwoXLarge => "t3.2xlarge"
      case M5Large => "m5.large"
      case M5XLarge => "m5.xlarge"
      case M5TwoXLarge => "m5.2xlarge"
      case M5FourXLarge => "m5.4xlarge"
      case M6iLarge => "m6i.large"
      case M6iXLarge => "m6i.xlarge"
      case M6iTwoXLarge => "m6i.2xlarge"
      case M6iFourXLarge => "m6i.4xlarge"
      case R5Large => "r5.large"
      case R5XLarge => "r5.xlarge"
      case R5TwoXLarge => "r5.2xlarge"
      case R5FourXLarge => "r5.4xlarge"
      case R5EightXLarge => "r5.8xlarge"
      case R6iLarge => "r6i.large"
      case R6iXLarge => "r6i.xlarge"
      case R6iTwoXLarge => "r6i.2xlarge"
      case R6iFourXLarge => "r6i.4xlarge"
      case R6iEightXLarge => "r6i.8xlarge"
    }
  }

  datatype LogLevelOption = Info | Warn | Error | Fatal
  {
    function Value(): string
    {
      match this
      case Info => "INFO"
      case Warn => "WARN"
      case Error => "ERROR"
      case Fatal => "FATAL"
    }
  }

  datatype VolumeTypeOption = Gp2 | Gp3 | St1 | Io1
  {
    function Value(): string
    {
      match this
      case Gp2 => "gp2"
      case Gp3 => "gp3"
      case St1 => "st1"
      case Io1 => "io1"
    }
  }

  datatype DorisVersion = V213 | V206
  {
    function Value(): string
    {
      match this
      case V213 => "213"
      case V206 => "206"
    }
  }

  datatype ClientAccessMode = SecurityGroupMode | CidrMode
  {
    function Value(): string
    {
      match this
      case SecurityGroupMode => "security-group"
      case CidrMode => "cidr"
    }
  }
}
